/**
 * GoWalker of walker/walker.go: the visitor that walks a file's syntax tree
 * and drives a printer, with the state it updates as it goes: the parent
 * node, the flush flag, the buffer the printer writes into, and what Flush
 * has written out.
 *
 * go/ast's single Visit(node) is split by the static kind of the node it is
 * called on (VisitFile, VisitDecl, VisitSpec, VisitStmt); Visit dispatches
 * to them and handles nil and unknown nodes. Every one of them saves the
 * parent, flushes at the end and restores the parent, as Visit does.
 */
module Walker {
  import opened GoStrings
  import opened GoAst
  import opened WalkerText

  /**
   * The printer the walker drives, seen through what the walker relies on:
   * its indentation level, and the text each of its calls appends at the
   * current level to its writer, which is the walker's buffer.
   */
  class Emitter {
    var level: int
    const render: Render

    constructor (render: Render)
      ensures this.render == render && level == 0
    {
      this.render := render;
      level := 0;
    }

    method UpdateLevel(delta: int)
      modifies this
      ensures level == old(level) + delta
    {
      level := level + delta;
    }
  }

  class GoWalker {
    const p: Emitter
    var parent: Node
    /** The bytes.Buffer the printer writes into. */
    var buffer: string
    var flush: bool
    /** What Flush has written to standard output so far. */
    var out: string

    /** The walker's state on return is the one it had on entry: parent, flush flag and level. */
    twostate predicate Restored()
      reads this, p
    {
      parent == old(parent) && flush == old(flush) && p.level == old(p.level)
    }

    /** Everything printed so far: standard output, then what the buffer still holds. */
    ghost function Printed(): string
      reads this
    {
      out + buffer
    }

    /**
     * Text `t` has been added to what is printed; with flushing off none of
     * it reached standard output.
     */
    twostate predicate Emitted(t: string)
      reads this
    {
      Printed() == old(Printed()) + t && (!flush ==> out == old(out))
    }

    /** Nothing has been added to what is printed, and with flushing off nothing reached standard output. */
    twostate predicate Silent()
      reads this
    {
      Printed() == old(Printed()) && (!flush ==> out == old(out))
    }

    /** NewWalker: flushing on, an empty buffer, which the printer writes into. */
    constructor (p: Emitter)
      ensures this.p == p && parent == NilNode && flush && out == "" && buffer == ""
    {
      this.p := p;
      parent := NilNode;
      buffer := "";
      flush := true;
      out := "";
    }

    /** Flush: with flushing on, what the buffer holds goes to standard output and the buffer is emptied. */
    method Flush()
      modifies this
      ensures parent == old(parent) && flush == old(flush)
      ensures flush ==> out == old(out) + old(buffer) && buffer == ""
      ensures !flush ==> out == old(out) && buffer == old(buffer)
      ensures Silent()
    {
      if flush && |buffer| > 0 {
        out := out + buffer;
        buffer := "";
      }
    }

    /** A call the walker makes on its printer: the call's text lands in the buffer. */
    method Emit(c: Call)
      modifies this
      ensures parent == old(parent) && flush == old(flush) && out == old(out)
      ensures buffer == old(buffer) + p.render(c, p.level)
      ensures Printed() == old(Printed()) + p.render(c, p.level)
    {
      buffer := buffer + p.render(c, p.level);
      Grow(out, old(buffer), p.render(c, p.level));
    }

    /** Visit: nil does nothing; every other node is dispatched by kind, unknown kinds get a placeholder. */
    method Visit(node: Node) returns (ret: bool)
      requires ParentFits(node, parent)
      modifies this, p
      decreases node, 7
      ensures Restored() && Emitted(NodeText(node, GenDeclTok(old(parent)), old(p.level), p.render))
      ensures node != NilNode && flush ==> buffer == ""
      ensures ret <==> Unhandled(node)
    {
      ret := false;
      match node {
        case NilNode =>
        case FileNode(f) =>
          VisitFile(f);
        case DeclNode(d) =>
          ret := VisitDecl(d);
        case SpecNode(sp) =>
          VisitSpec(sp);
        case StmtNode(s) =>
          ret := VisitStmt(s);
        case OtherNode(kind) =>
          var pparent := parent;
          parent := node;
          Emit(Print(NodePlaceholder(kind)));
          ret := true;
          Flush();
          parent := pparent;
      }
    }

    method VisitFile(f: File)
      modifies this, p
      decreases f, 1
      ensures Restored() && Emitted(FileText(f, old(p.level), p.render))
      ensures flush ==> buffer == ""
    {
      var pparent := parent;
      parent := FileNode(f);
      ghost var L, P0 := p.level, Printed();
      Emit(PrintPackage(f.name));
      ghost var head := p.render(PrintPackage(f.name), L);
      var i := 0;
      while i < |f.decls|
        invariant 0 <= i <= |f.decls|
        invariant parent == FileNode(f) && flush == old(flush) && p.level == L
        invariant Printed() == P0 + (head + DeclsText(f.decls[..i], L, p.render))
        invariant !flush ==> out == old(out)
      {
        assert f.decls[..i + 1][..i] == f.decls[..i];
        ghost var before := DeclsText(f.decls[..i], L, p.render);
        var _ := VisitDecl(f.decls[i]);
        Grow3(P0, head, before, DeclText(f.decls[i], L, p.render));
        i := i + 1;
      }
      assert f.decls[..i] == f.decls;
      Flush();
      parent := pparent;
    }

    method VisitDecl(d: Decl) returns (ret: bool)
      modifies this, p
      decreases d, 1
      ensures Restored() && Emitted(DeclText(d, old(p.level), p.render))
      ensures flush ==> buffer == ""
      ensures ret <==> d.BadDecl?
    {
      var pparent := parent;
      parent := DeclNode(d);
      ret := false;
      match d {
        case GenDecl(_, _) =>
          VisitGenDecl(d);
        case FuncDecl(_, _, _, _, _) =>
          VisitFuncDecl(d);
        case BadDecl =>
          Emit(Print(NodePlaceholder("BadDecl")));
          ret := true;
      }
      Flush();
      parent := pparent;
    }

    /** The GenDecl case of Visit: each spec is visited with the declaration as parent. */
    method VisitGenDecl(d: Decl)
      requires d.GenDecl? && parent == DeclNode(d)
      modifies this, p
      decreases d, 0
      ensures Restored() && Emitted(DeclText(d, old(p.level), p.render))
    {
      ghost var L, P0 := p.level, Printed();
      var i := 0;
      while i < |d.specs|
        invariant 0 <= i <= |d.specs|
        invariant parent == DeclNode(d) && flush == old(flush) && p.level == L
        invariant Printed() == P0 + SpecsText(d.specs[..i], d.tok, L, p.render)
        invariant !flush ==> out == old(out)
      {
        assert d.specs[..i + 1][..i] == d.specs[..i];
        ghost var before := SpecsText(d.specs[..i], d.tok, L, p.render);
        VisitSpec(d.specs[i]);
        Grow(P0, before, SpecText(d.specs[i], d.tok, L, p.render));
        i := i + 1;
      }
      assert d.specs[..i] == d.specs;
    }

    /** The FuncDecl case of Visit: the signature, the body, then a newline. */
    method VisitFuncDecl(d: Decl)
      requires d.FuncDecl?
      modifies this, p
      decreases d, 0
      ensures Restored() && Emitted(DeclText(d, old(p.level), p.render))
    {
      ghost var L, P0 := p.level, Printed();
      var r := ParseFieldList(d.recv, ", ");
      var ps := ParseFieldList(d.params, ", ");
      var rs := ParseFieldList(d.results, ", ");
      Emit(PrintFunc(r, d.name, ps, rs));
      ghost var a := p.render(PrintFunc(r, d.name, ps, rs), L);
      var _ := VisitStmt(d.body);
      ghost var b := StmtText(d.body, L, p.render);
      Grow(P0, a, b);
      Emit(Print("\n"));
      Grow3(P0, a, b, p.render(Print("\n"), L));
    }

    /** A ValueSpec reads the token ("const", "var") of the GenDecl it is visited from. */
    method VisitSpec(sp: Spec)
      requires sp.ValueSpec? ==> parent.DeclNode? && parent.decl.GenDecl?
      modifies this, p
      decreases sp, 1
      ensures Restored() && Emitted(SpecText(sp, GenDeclTok(old(parent)), old(p.level), p.render))
      ensures flush ==> buffer == ""
    {
      var pparent := parent;
      parent := SpecNode(sp);
      match sp {
        case ImportSpec(alias, path) =>
          Emit(PrintImport(IdentString(alias), path));
        case TypeSpec(name, typ) =>
          var t := ParseExpr(typ);
          Emit(PrintType(name, t));
        case ValueSpec(names, typ, values) =>
          var vtype := pparent.decl.tok;
          var t := ParseExpr(typ);
          var v := ParseExprList(values);
          Emit(PrintValue(vtype, ParseNames(names), t, v));
      }
      Flush();
      parent := pparent;
    }

    /** Visit of a statement; unknown kinds get a placeholder and make Visit return the walker. */
    method VisitStmt(s: Stmt) returns (ret: bool)
      modifies this, p
      decreases s, 3
      ensures Restored() && Emitted(StmtText(s, old(p.level), p.render))
      ensures flush ==> buffer == ""
      ensures ret <==> s.OtherStmt?
    {
      var pparent := parent;
      parent := StmtNode(s);
      ret := VisitStmtKind(s);
      Flush();
      parent := pparent;
    }

    /** The switch of Visit over the kinds of statement. */
    method VisitStmtKind(s: Stmt) returns (ret: bool)
      modifies this, p
      decreases s, 2
      ensures Restored() && Emitted(StmtText(s, old(p.level), p.render))
      ensures ret <==> s.OtherStmt?
    {
      ghost var L, R := p.level, p.render;
      ret := false;
      match s {
        case DeclStmt(decl) =>
          var _ := VisitDecl(decl);
          assert StmtText(s, L, R) == DeclText(decl, L, R);
        case OtherStmt(kind) =>
          Emit(Print(NodePlaceholder(kind)));
          ret := true;
        case BranchStmt(_, _) | DeferStmt(_) | GoStmt(_) | ReturnStmt(_) | ExprStmt(_)
          | AssignStmt(_, _, _) | IncDecStmt(_, _) | EmptyStmt =>
          VisitSimpleStmt(s);
        case _ =>
          VisitCompoundStmt(s);
      }
    }

    /** The statements with a body: each has a case of its own below. */
    method VisitCompoundStmt(s: Stmt)
      requires s.BlockStmt? || s.IfStmt? || s.ForStmt? || s.SwitchStmt? || s.TypeSwitchStmt?
        || s.CaseClause? || s.RangeStmt?
      modifies this, p
      decreases s, 1
      ensures Restored() && Emitted(StmtText(s, old(p.level), p.render))
    {
      match s {
        case BlockStmt(_) =>
          VisitBlockStmt(s);
        case IfStmt(_, _, _, _) =>
          VisitIfStmt(s);
        case ForStmt(_, _, _, _) =>
          VisitForStmt(s);
        case SwitchStmt(_, _, _) =>
          VisitSwitchStmt(s);
        case TypeSwitchStmt(_, _, _) =>
          VisitTypeSwitchStmt(s);
        case CaseClause(_, _) =>
          VisitCaseClause(s);
        case RangeStmt(_, _, _, _) =>
          VisitRangeStmt(s);
      }
    }

    /** The BlockStmt case: "{", the statements one level deeper, the level back, "}". */
    method VisitBlockStmt(s: Stmt)
      requires s.BlockStmt?
      modifies this, p
      decreases s, 0
      ensures Restored() && Emitted(StmtText(s, old(p.level), p.render))
    {
      ghost var L, R, P0 := p.level, p.render, Printed();
      Emit(PrintLevel(["{\n"]));
      ghost var head := R(PrintLevel(["{\n"]), L);
      p.UpdateLevel(UP);
      VisitStmts(s.list);
      p.UpdateLevel(DOWN);
      ghost var body := head + StmtsText(s.list, L + UP, R);
      Grow(P0, head, StmtsText(s.list, L + UP, R));
      Emit(PrintLevel(["}"]));
      Grow(P0, body, R(PrintLevel(["}"]), L));
      assert body + R(PrintLevel(["}"]), L) == StmtText(s, L, R);
    }

    /** The statements of a block or a case clause, visited in order at the current level. */
    method VisitStmts(ss: seq<Stmt>)
      modifies this, p
      decreases ss, 0
      ensures Restored() && Emitted(StmtsText(ss, old(p.level), p.render))
    {
      ghost var L, R, P0 := p.level, p.render, Printed();
      var i := 0;
      while i < |ss|
        invariant 0 <= i <= |ss|
        invariant parent == old(parent) && flush == old(flush) && p.level == L
        invariant Printed() == P0 + StmtsText(ss[..i], L, R)
        invariant !flush ==> out == old(out)
      {
        assert ss[..i + 1][..i] == ss[..i];
        ghost var before := StmtsText(ss[..i], L, R);
        var _ := VisitStmt(ss[i]);
        Grow(P0, before, StmtText(ss[i], L, R));
        i := i + 1;
      }
      assert ss[..i] == ss;
    }

    /** The IfStmt case: the captured init and the condition, the body, an optional else, a newline. */
    method VisitIfStmt(s: Stmt)
      requires s.IfStmt?
      modifies this, p
      decreases s, 0
      ensures Restored() && Emitted(StmtText(s, old(p.level), p.render))
    {
      ghost var L, R, P0 := p.level, p.render, Printed();
      var i := BufferVisit(s.init);
      var c := ParseExpr(s.cond);
      assert i == OptCaptureText(s.init, L, R) && c == ExprText(s.cond, L, R);
      assert Printed() == P0;
      Emit(PrintIf(i, c));
      ghost var a := R(PrintIf(i, c), L);
      var _ := VisitStmt(s.body);
      ghost var b := StmtText(s.body, L, R);
      Grow(P0, a, b);
      assert Printed() == P0 + (a + b);
      ghost var e := "";
      if s.els.Some? {
        ghost var X := Printed();
        Emit(SameLine);
        Emit(PrintElse);
        ghost var se := R(SameLine, L) + R(PrintElse, L);
        Grow(X, R(SameLine, L), R(PrintElse, L));
        var _ := VisitStmt(s.els.value);
        e := se + StmtText(s.els.value, L, R);
        Grow(X, se, StmtText(s.els.value, L, R));
      }
      Grow(P0, a + b, e);
      assert Printed() == P0 + (a + b + e);
      Emit(Print("\n"));
      Grow(P0, a + b + e, R(Print("\n"), L));
      assert a + b + e + R(Print("\n"), L) == StmtText(s, L, R);
      assert Printed() == P0 + StmtText(s, L, R) && p.level == L;
    }

    /** The ForStmt case: captured init, condition, captured post, the body, a newline. */
    method VisitForStmt(s: Stmt)
      requires s.ForStmt?
      modifies this, p
      decreases s, 0
      ensures Restored() && Emitted(StmtText(s, old(p.level), p.render))
    {
      ghost var L, P0 := p.level, Printed();
      var i := BufferVisit(s.init);
      var c := ParseExpr(s.cond);
      var q := BufferVisit(s.post);
      assert Printed() == P0;
      assert i == OptCaptureText(s.init, L, p.render);
      assert c == ExprText(s.cond, L, p.render);
      assert q == OptCaptureText(s.post, L, p.render);
      Emit(PrintFor(i, c, q));
      ghost var a := p.render(PrintFor(i, c, q), L);
      assert Printed() == P0 + a;
      var _ := VisitStmt(s.body);
      ghost var b := StmtText(s.body, L, p.render);
      Grow(P0, a, b);
      assert Printed() == P0 + (a + b);
      Emit(Print("\n"));
      Grow3(P0, a, b, p.render(Print("\n"), L));
      assert Printed() == P0 + (a + b + p.render(Print("\n"), L));
      assert a + b + p.render(Print("\n"), L) == StmtText(s, L, p.render);
    }

    /** The SwitchStmt case: captured init and the tag, the body, a newline. */
    method VisitSwitchStmt(s: Stmt)
      requires s.SwitchStmt?
      modifies this, p
      decreases s, 0
      ensures Restored() && Emitted(StmtText(s, old(p.level), p.render))
    {
      ghost var L, P0 := p.level, Printed();
      var i := BufferVisit(s.init);
      var t := ParseExpr(s.tag);
      Emit(PrintSwitch(i, t));
      ghost var a := p.render(PrintSwitch(i, t), L);
      var _ := VisitStmt(s.body);
      ghost var b := StmtText(s.body, L, p.render);
      Grow(P0, a, b);
      Emit(Print("\n"));
      Grow3(P0, a, b, p.render(Print("\n"), L));
    }

    /** The TypeSwitchStmt case: captured init and captured assignment, the body, a newline. */
    method VisitTypeSwitchStmt(s: Stmt)
      requires s.TypeSwitchStmt?
      modifies this, p
      decreases s, 0
      ensures Restored() && Emitted(StmtText(s, old(p.level), p.render))
    {
      ghost var L, P0 := p.level, Printed();
      var i := BufferVisit(s.init);
      var a := BufferVisitStmt(s.assign);
      Emit(PrintSwitch(i, a));
      ghost var h := p.render(PrintSwitch(i, a), L);
      var _ := VisitStmt(s.body);
      ghost var b := StmtText(s.body, L, p.render);
      Grow(P0, h, b);
      Emit(Print("\n"));
      Grow3(P0, h, b, p.render(Print("\n"), L));
    }

    /** The CaseClause case: "case list:" or "default:", then the statements one level deeper. */
    method VisitCaseClause(s: Stmt)
      requires s.CaseClause?
      modifies this, p
      decreases s, 0
      ensures Restored() && Emitted(StmtText(s, old(p.level), p.render))
    {
      ghost var L, R, P0 := p.level, p.render, Printed();
      var c: Call;
      if |s.exprs| > 0 {
        var l := ParseExprList(s.exprs);
        c := PrintLevel(["case", l, ":", "\n"]);
        assert l == ExprListText(s.exprs, L, R);
      } else {
        c := PrintLevel(["default:", "\n"]);
      }
      assert StmtText(s, L, R) == R(c, L) + StmtsText(s.stmts, L + UP, R);
      Emit(c);
      p.UpdateLevel(UP);
      VisitStmts(s.stmts);
      p.UpdateLevel(DOWN);
      Grow(P0, R(c, L), StmtsText(s.stmts, L + UP, R));
    }

    /** The RangeStmt case: "for key , value := range x", the body, a newline. */
    method VisitRangeStmt(s: Stmt)
      requires s.RangeStmt?
      modifies this, p
      decreases s, 0
      ensures Restored() && Emitted(StmtText(s, old(p.level), p.render))
    {
      ghost var L, P0 := p.level, Printed();
      var k := ParseExpr(s.key);
      var v := ParseExpr(s.value);
      var r := ParseExpr(s.x);
      Emit(PrintLevel(["for", k, ",", v, ":= range", r]));
      ghost var a := p.render(PrintLevel(["for", k, ",", v, ":= range", r]), L);
      var _ := VisitStmt(s.body);
      ghost var b := StmtText(s.body, L, p.render);
      Grow(P0, a, b);
      Emit(Print("\n"));
      Grow3(P0, a, b, p.render(Print("\n"), L));
    }

    /** The statements Visit turns into a single printer call: the call is built, then made. */
    method VisitSimpleStmt(s: Stmt)
      requires s.BranchStmt? || s.DeferStmt? || s.GoStmt? || s.ReturnStmt? || s.ExprStmt?
        || s.AssignStmt? || s.IncDecStmt? || s.EmptyStmt?
      modifies this, p
      decreases s, 1
      ensures Restored() && Emitted(StmtText(s, old(p.level), p.render))
    {
      var c: Call;
      if s.BranchStmt? || s.DeferStmt? || s.GoStmt? || s.ReturnStmt? {
        c := StmtCall(s);
      } else {
        c := LevelCall(s);
      }
      Emit(c);
    }

    /** The statements printed with PrintStmt: a keyword and one operand. */
    method StmtCall(s: Stmt) returns (c: Call)
      requires s.BranchStmt? || s.DeferStmt? || s.GoStmt? || s.ReturnStmt?
      modifies this, p
      decreases s, 0
      ensures Restored() && Silent()
      ensures c.PrintStmt? && p.render(c, p.level) == StmtText(s, p.level, p.render)
    {
      ghost var L, R := p.level, p.render;
      match s {
        case BranchStmt(tok, target) =>
          c := PrintStmt(tok, IdentString(target));
        case DeferStmt(call) =>
          var t := ParseExpr(call);
          c := PrintStmt("defer", t);
          assert t == ExprText(call, L, R);
        case GoStmt(call) =>
          var t := ParseExpr(call);
          c := PrintStmt("go", t);
          assert t == ExprText(call, L, R);
        case ReturnStmt(results) =>
          var l := ParseExprList(results);
          c := PrintStmt("return", l);
          assert l == ExprListText(results, L, R);
      }
    }

    /** The statements printed with PrintLevel or PrintEmpty. */
    method LevelCall(s: Stmt) returns (c: Call)
      requires s.ExprStmt? || s.AssignStmt? || s.IncDecStmt? || s.EmptyStmt?
      modifies this, p
      decreases s, 0
      ensures Restored() && Silent()
      ensures (c.PrintLevel? || c.PrintEmpty?) && p.render(c, p.level) == StmtText(s, p.level, p.render)
    {
      ghost var L, R := p.level, p.render;
      match s {
        case ExprStmt(x) =>
          assert StmtText(s, L, R) == R(PrintLevel([ExprText(x, L, R), "\n"]), L);
          var t := ParseExpr(x);
          c := PrintLevel([t, "\n"]);
        case AssignStmt(lhs, tok, rhs) =>
          assert StmtText(s, L, R) == R(PrintLevel([ExprListText(lhs, L, R), tok, ExprListText(rhs, L, R), "\n"]), L);
          var l := ParseExprList(lhs);
          var r := ParseExprList(rhs);
          c := PrintLevel([l, tok, r, "\n"]);
        case IncDecStmt(x, tok) =>
          assert StmtText(s, L, R) == R(PrintLevel([ExprText(x, L, R) + tok, " "]), L);
          var t := ParseExpr(x);
          c := PrintLevel([t + tok, " "]);
        case EmptyStmt =>
          c := PrintEmpty;
      }
    }

    /**
     * BufferVisit of a statement: the text the statement's visit produces,
     * trimmed, while nothing reaches the output. The buffer's earlier
     * content is set aside during the capture and put back afterwards; with
     * flushing on (the only case where walker/walker.go gets this right)
     * Flush has already emptied it.
     */
    method BufferVisitStmt(s: Stmt) returns (ret: string)
      modifies this, p
      decreases s, 4
      ensures Restored() && Silent()
      ensures ret == CaptureText(s, old(p.level), p.render)
    {
      Flush();
      ghost var P1 := Printed();
      var saved := buffer;
      buffer := "";
      var prev := flush;
      flush := false;
      ghost var o1 := out;
      var _ := VisitStmt(s);
      CancelPrefix(o1, buffer, StmtText(s, old(p.level), p.render));
      flush := prev;
      ret := TrimSpace(buffer);
      buffer := saved;
    }

    /** BufferVisit of a statement that may be nil: a nil one captures "". */
    method BufferVisit(o: Option<Stmt>) returns (ret: string)
      modifies this, p
      decreases o, 3
      ensures Restored() && Silent()
      ensures ret == OptCaptureText(o, old(p.level), p.render)
    {
      if o.None? {
        Flush();
        ret := "";
      } else {
        ret := BufferVisitStmt(o.value);
      }
    }

    /**
     * BufferVisit exactly as walker/walker.go writes it. Called while
     * flushing is already off (a capture inside a capture, as for a function
     * literal in an if statement's init), it returns the whole buffer,
     * earlier content included, and leaves the captured text in the buffer,
     * where the enclosing capture picks it up a second time; for a nil
     * statement it returns the earlier content alone.
     */
    method BufferVisitAsWritten(o: Option<Stmt>) returns (ret: string)
      modifies this, p
      ensures Restored()
      ensures old(flush) ==> Silent() && buffer == "" && ret == OptCaptureText(o, old(p.level), p.render)
      ensures !old(flush) ==>
        out == old(out)
        && (ret, buffer) == NestedCaptureAsWritten(old(buffer), if o.Some? then StmtText(o.value, old(p.level), p.render) else "")
    {
      Flush();
      ghost var b1 := buffer;
      var prev := flush;
      flush := false;
      ghost var T := if o.Some? then StmtText(o.value, p.level, p.render) else "";
      VisitInBuffer(o);
      assert buffer == b1 + T;
      assert old(flush) ==> b1 == "" && buffer == T;
      flush := prev;
      ret := TrimSpace(buffer);
      assert old(flush) ==> ret == OptCaptureText(o, old(p.level), p.render) by {
        if old(flush) && o.None? {
          assert TrimSpace("") == "";
        }
      }
      if flush {
        buffer := "";
      }
    }

    /** Visit with flushing off: the statement's text, if there is one, is added to the buffer. */
    method VisitInBuffer(o: Option<Stmt>)
      requires !flush
      modifies this, p
      ensures Restored()
      ensures out == old(out) && buffer == old(buffer) + (if o.Some? then StmtText(o.value, old(p.level), p.render) else "")
    {
      if o.Some? {
        ghost var o1, b1, T := out, buffer, StmtText(o.value, p.level, p.render);
        var _ := VisitStmt(o.value);
        assert out == o1 && Printed() == o1 + b1 + T;
        Grow(o1, b1, T);
        CancelPrefix(o1, buffer, b1 + T);
      }
    }

    /**
     * parseExpr: the expression's text; a function literal's body is
     * captured, nothing is printed. Its switch is split over this method and
     * the three that follow, by the kind of expression.
     */
    method ParseExpr(e: Expr) returns (r: string)
      modifies this, p
      decreases e, 4
      ensures Restored() && Silent()
      ensures r == ExprText(e, p.level, p.render)
    {
      match e {
        case NilExpr =>
          r := "";
        case Ident(name) =>
          r := name;
        case BasicLit(lit) =>
          r := lit;
        case OtherExpr(kind) =>
          r := ExprPlaceholder(kind);
        case StarExpr(_) | ArrayType(_, _) | MapType(_, _) | InterfaceType(_) | StructType(_)
          | ChanType(_, _) | FuncType(_, _) | Ellipsis(_) =>
          r := ParseTypeExpr(e);
        case UnaryExpr(_, _) | BinaryExpr(_, _, _) | ParenExpr(_) | SelectorExpr(_, _)
          | KeyValueExpr(_, _) | IndexExpr(_, _) =>
          r := ParseOperatorExpr(e);
        case CompositeLit(_, _) | SliceExpr(_, _, _, _) | CallExpr(_, _, _) | TypeAssertExpr(_, _)
          | FuncLit(_, _) =>
          r := ParseCompoundExpr(e);
      }
    }

    /** parseExpr on a type expression. */
    method ParseTypeExpr(e: Expr) returns (r: string)
      requires e.StarExpr? || e.ArrayType? || e.MapType? || e.InterfaceType? || e.StructType?
        || e.ChanType? || e.FuncType? || e.Ellipsis?
      modifies this, p
      decreases e, 3
      ensures Restored() && Silent()
      ensures r == ExprText(e, p.level, p.render)
    {
      ghost var L, R := p.level, p.render;
      assert ExprText(e, L, R) == TypeExprText(e, L, R);
      match e {
        case StarExpr(x) =>
          var t := ParseExpr(x);
          r := "*" + t;
          assert t == ExprText(x, L, R);
        case ArrayType(len, elt) =>
          var l := ParseExpr(len);
          var t := ParseExpr(elt);
          r := "[" + l + "]" + t;
          assert l == ExprText(len, L, R) && t == ExprText(elt, L, R);
        case MapType(key, value) =>
          var k := ParseExpr(key);
          var v := ParseExpr(value);
          r := "[" + k + "]" + v;
          assert k == ExprText(key, L, R) && v == ExprText(value, L, R);
        case InterfaceType(methods) =>
          var m := ParseFieldList(methods, "; ");
          r := "interface{" + m + "}";
          assert m == FieldListText(methods, "; ", L, R);
        case StructType(fields) =>
          var f := ParseFieldList(fields, "; ");
          r := "struct{" + f + "}";
          assert f == FieldListText(fields, "; ", L, R);
        case ChanType(dir, value) =>
          var ctype := "chan";
          if dir == Send {
            ctype := "chan<-";
          } else if dir == Recv {
            ctype := "<-chan";
          }
          var v := ParseExpr(value);
          r := ctype + " " + v;
          assert ctype == ChanKeyword(dir) && v == ExprText(value, L, R);
        case FuncType(params, results) =>
          var ps := ParseFieldList(params, ", ");
          var rs := ParseFieldList(results, ", ");
          r := "(" + ps + ") " + WrapIf(rs);
          assert ps == FieldListText(params, ", ", L, R) && rs == FieldListText(results, ", ", L, R);
        case Ellipsis(elt) =>
          var t := ParseExpr(elt);
          r := "..." + t;
          assert t == ExprText(elt, L, R);
      }
    }

    /** parseExpr on an operator, a selector, a key-value pair or an index. */
    method ParseOperatorExpr(e: Expr) returns (r: string)
      requires e.UnaryExpr? || e.BinaryExpr? || e.ParenExpr? || e.SelectorExpr? || e.KeyValueExpr? || e.IndexExpr?
      modifies this, p
      decreases e, 3
      ensures Restored() && Silent()
      ensures r == ExprText(e, p.level, p.render)
    {
      ghost var L, R := p.level, p.render;
      assert ExprText(e, L, R) == OperatorExprText(e, L, R);
      match e {
        case UnaryExpr(op, x) =>
          var t := ParseExpr(x);
          r := op + t;
          assert t == ExprText(x, L, R);
        case BinaryExpr(x, op, y) =>
          var a := ParseExpr(x);
          var b := ParseExpr(y);
          r := a + " " + op + " " + b;
          assert a == ExprText(x, L, R) && b == ExprText(y, L, R);
        case ParenExpr(x) =>
          var a := ParseExpr(x);
          r := "(" + a + ")";
          assert a == ExprText(x, L, R);
        case SelectorExpr(x, sel) =>
          var a := ParseExpr(x);
          r := a + "." + sel;
          assert a == ExprText(x, L, R);
        case KeyValueExpr(key, value) =>
          var k := ParseExpr(key);
          var v := ParseExpr(value);
          r := k + ": " + v;
          assert k == ExprText(key, L, R) && v == ExprText(value, L, R);
        case IndexExpr(x, index) =>
          var a := ParseExpr(x);
          var i := ParseExpr(index);
          r := a + "[" + i + "]";
          assert a == ExprText(x, L, R) && i == ExprText(index, L, R);
      }
    }

    /** parseExpr on a composite literal, a slice, a call, a type assertion or a function literal. */
    method ParseCompoundExpr(e: Expr) returns (r: string)
      requires e.CompositeLit? || e.SliceExpr? || e.CallExpr? || e.TypeAssertExpr? || e.FuncLit?
      modifies this, p
      decreases e, 3
      ensures Restored() && Silent()
      ensures r == ExprText(e, p.level, p.render)
    {
      ghost var L, R := p.level, p.render;
      assert ExprText(e, L, R) == CompoundExprText(e, L, R);
      match e {
        case CompositeLit(typ, elts) =>
          var t := ParseExpr(typ);
          var l := ParseExprList(elts);
          r := t + "{" + l + "}";
          assert t == ExprText(typ, L, R) && l == ExprListText(elts, L, R);
        case SliceExpr(x, low, high, max) =>
          var a := ParseExpr(x);
          var l := ParseExpr(low);
          var h := ParseExpr(high);
          assert a == ExprText(x, L, R) && l == ExprText(low, L, R) && h == ExprText(high, L, R);
          if max.NilExpr? {
            r := a + "[" + l + ":" + h + "]";
          } else {
            var m := ParseExpr(max);
            r := a + "[" + l + ":" + h + ":" + m + "]";
            assert m == ExprText(max, L, R);
          }
        case CallExpr(fun, args, ellipsis) =>
          var f := ParseExpr(fun);
          var l := ParseExprList(args);
          r := f + "(" + l + IfTrue("...", ellipsis > 0) + ")";
          assert f == ExprText(fun, L, R) && l == ExprListText(args, L, R);
        case TypeAssertExpr(x, typ) =>
          var a := ParseExpr(x);
          var t := ExprOr(typ, "type");
          r := a + ".(" + t + ")";
          assert a == ExprText(x, L, R) && t == ExprOrText(typ, "type", L, R);
        case FuncLit(typ, body) =>
          var t := ParseExpr(typ);
          var b := BufferVisitStmt(body);
          r := "func" + t + " " + b;
          assert t == ExprText(typ, L, R) && b == CaptureText(body, L, R);
      }
    }

    /** parseExprList: the elements' texts, in order, joined by ", ". */
    method ParseExprList(es: seq<Expr>) returns (r: string)
      modifies this, p
      decreases es, 4
      ensures Restored() && Silent()
      ensures r == ExprListText(es, p.level, p.render)
    {
      var exprs: seq<string> := [];
      var i := 0;
      while i < |es|
        invariant 0 <= i <= |es|
        invariant Restored() && Silent()
        invariant exprs == ExprTexts(es[..i], p.level, p.render)
      {
        assert es[..i + 1][..i] == es[..i];
        var t := ParseExpr(es[i]);
        exprs := exprs + [t];
        i := i + 1;
      }
      assert es[..i] == es;
      r := Join(exprs, ", ");
    }

    /** parseFieldList: each field as "names type" or just its type, joined by `sep`; nil gives "". */
    method ParseFieldList(fl: FieldList, sep: string) returns (r: string)
      modifies this, p
      decreases fl, 4
      ensures Restored() && Silent()
      ensures r == FieldListText(fl, sep, p.level, p.render)
    {
      if fl.NilFields? {
        return "";
      }
      var fields: seq<string> := [];
      var i := 0;
      ghost var L, R := p.level, p.render;
      while i < |fl.list|
        invariant 0 <= i <= |fl.list|
        invariant Restored() && Silent()
        invariant p.level == L && p.render == R
        invariant fields == FieldTexts(fl.list[..i], L, R)
      {
        assert fl.list[..i + 1][..i] == fl.list[..i];
        assert FieldTexts(fl.list[..i + 1], L, R) == FieldTexts(fl.list[..i], L, R) + [FieldText(fl.list[i], L, R)];
        assert fl.list[i] in fl.list;
        var field := ParseField(fl.list[i]);
        fields := fields + [field];
        i := i + 1;
      }
      assert fl.list[..i] == fl.list;
      r := Join(fields, sep);
    }

    /** One field of parseFieldList: "names type", or just the type when the field is unnamed. */
    method ParseField(f: Field) returns (field: string)
      modifies this, p
      decreases f, 0
      ensures Restored() && Silent()
      ensures field == FieldText(f, p.level, p.render)
    {
      field := ParseNames(f.names);
      if |field| > 0 {
        var t := ParseExpr(f.typ);
        field := field + " " + t;
      } else {
        field := ParseExpr(f.typ);
      }
    }

    /** exprOr: the expression's text, or `v` when it is absent. */
    method ExprOr(e: Expr, v: string) returns (r: string)
      modifies this, p
      decreases e, 5
      ensures Restored() && Silent()
      ensures r == ExprOrText(e, v, p.level, p.render)
    {
      if !e.NilExpr? {
        r := ParseExpr(e);
      } else {
        r := v;
      }
    }
  }

  /**
   * What BufferVisit as written returns, and leaves in the buffer, when
   * called with flushing off on a buffer holding `prior`, for a statement
   * whose text is `t`.
   */
  function NestedCaptureAsWritten(prior: string, t: string): (r: (string, string))
    ensures r.1 == prior + t
    ensures exists i :: OccursAt(prior + t, r.0, i)
  {
    TrimSpaceInside(prior + t);
    (TrimSpace(prior + t), prior + t)
  }
}
