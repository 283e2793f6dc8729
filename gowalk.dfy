/**
 * go-walk.go: the earlier, smaller walker that prints Go back as Go. Its
 * renderers (parseExpr, parseExprList, parseFieldList) are pure functions
 * of the tree; GoPrinter holds an indentation level and writes to standard
 * output, which is modelled as the text `out` it has written so far. The
 * walker's own fmt calls write to the same standard output, through Write.
 *
 * GoWalker.Visit has a value receiver in go-walk.go: the walker it
 * updates is a copy, so the walker here is a datatype value, and a child
 * is visited by a copy whose parent is the node being visited.
 */
module GoWalk {
  import opened GoStrings
  import opened GoAst

  const SP: string := " "
  const NL: string := "\n"
  const UP: int := 1
  const DOWN: int := -1

  // ----- the renderers -----

  /** The placeholder parseExpr gives an expression kind it has no case for. */
  function ExprPlaceholder(kind: string): string
  {
    "[[[ " + Dump(kind) + " ]]]"
  }

  /** The expression kinds parseExpr has no case for (nil has one: it gives ""). */
  predicate UnhandledExpr(e: Expr)
  {
    e.ChanType? || e.KeyValueExpr? || e.TypeAssertExpr? || e.ParenExpr? || e.FuncLit? || e.OtherExpr?
  }

  /** parseExpr: a call's text ends with its ")", an index's and a slice's with "]", a composite literal's with "}". */
  function ExprText(e: Expr): (r: string)
    ensures e.CallExpr? ==> HasSuffix(r, ")")
    ensures e.IndexExpr? || e.SliceExpr? ==> HasSuffix(r, "]")
    ensures e.CompositeLit? ==> HasSuffix(r, "}")
    decreases e, 2
  {
    match e
    case NilExpr => ""
    case Ident(name) => name
    case StarExpr(x) => "*" + ExprText(x)
    case ArrayType(len, elt) => "[" + ExprText(len) + "]" + ExprText(elt)
    case MapType(key, value) => "[" + ExprText(key) + "]" + ExprText(value)
    case InterfaceType(methods) => "interface{" + FieldListText(methods, true) + "}"
    case StructType(fields) => "struct{" + FieldListText(fields, true) + "}"
    case FuncType(params, results) => "(" + FieldListText(params, false) + ") " + FieldListText(results, true)
    case BasicLit(lit) => lit
    case CompositeLit(typ, elts) => ExprText(typ) + "{" + ExprListText(elts) + "}"
    case Ellipsis(elt) => "..." + ExprText(elt)
    case UnaryExpr(op, x) => op + ExprText(x)
    case BinaryExpr(x, op, y) => ExprText(x) + " " + op + " " + ExprText(y)
    case IndexExpr(x, index) => ExprText(x) + "[" + ExprText(index) + "]"
    case SliceExpr(x, low, high, max) =>
      if max.NilExpr? then ExprText(x) + "[" + ExprText(low) + ":" + ExprText(high) + "]"
      else ExprText(x) + "[" + ExprText(low) + ":" + ExprText(high) + ":" + ExprText(max) + "]"
    case SelectorExpr(x, sel) => ExprText(x) + "." + sel
    case CallExpr(fun, args, ellipsis) => ExprText(fun) + "(" + ExprListText(args) + IfTrue("...", ellipsis > 0) + ")"
    case _ => ExprPlaceholder(ExprKind(e))
  }

  /** The texts of the expressions, one per expression, in order. */
  function ExprTexts(es: seq<Expr>): (r: seq<string>)
    ensures |r| == |es|
    decreases es, 0
  {
    if |es| == 0 then [] else ExprTexts(es[..|es| - 1]) + [ExprText(es[|es| - 1])]
  }

  /** parseExprList: the expressions' texts joined by ", ". */
  function ExprListText(es: seq<Expr>): string
    decreases es, 1
  {
    Join(ExprTexts(es), ", ")
  }

  /** One field of parseFieldList: its names, a blank, its type (the blank is there even without names). */
  function FieldText(f: Field): string
    decreases f, 3
  {
    ParseNames(f.names) + " " + ExprText(f.typ)
  }

  function FieldTexts(fs: seq<Field>): (r: seq<string>)
    ensures |r| == |fs|
    decreases fs, 0
  {
    if |fs| == 0 then [] else FieldTexts(fs[..|fs| - 1]) + [FieldText(fs[|fs| - 1])]
  }

  /** parseFieldList: the fields in parentheses; a nil list is "" with `omitempty`, "()" without. */
  function FieldListText(fl: FieldList, omitempty: bool): (r: string)
    ensures r == "" <==> fl.NilFields? && omitempty
    ensures r != "" ==> HasPrefix(r, "(") && HasSuffix(r, ")")
    decreases fl, 1
  {
    if fl.FieldList? then "(" + Join(FieldTexts(fl.list), ", ") + ")"
    else if omitempty then ""
    else "()"
  }

  /** parseExprList with its append loop: the same text as ExprListText. */
  method ParseExprList(l: seq<Expr>) returns (r: string)
    ensures r == ExprListText(l)
  {
    var exprs: seq<string> := [];
    var i := 0;
    while i < |l|
      invariant 0 <= i <= |l|
      invariant exprs == ExprTexts(l[..i])
    {
      assert l[..i + 1][..i] == l[..i];
      exprs := exprs + [ExprText(l[i])];
      i := i + 1;
    }
    assert l[..i] == l;
    r := Join(exprs, ", ");
  }

  /** parseFieldList with its append loop: the same text as FieldListText. */
  method ParseFieldList(l: FieldList, omitempty: bool) returns (r: string)
    ensures r == FieldListText(l, omitempty)
  {
    if l.FieldList? {
      var fields: seq<string> := [];
      var i := 0;
      while i < |l.list|
        invariant 0 <= i <= |l.list|
        invariant fields == FieldTexts(l.list[..i])
      {
        assert l.list[..i + 1][..i] == l.list[..i];
        var f := l.list[i];
        fields := fields + [ParseNames(f.names) + " " + ExprText(f.typ)];
        i := i + 1;
      }
      assert l.list[..i] == l.list;
      r := "(" + Join(fields, ", ") + ")";
    } else if omitempty {
      r := "";
    } else {
      r := "()";
    }
  }

  /** parseNames with its append loop: the names in order, joined by ", ". */
  method ParseNamesLoop(v: seq<string>) returns (r: string)
    ensures r == ParseNames(v)
  {
    var names: seq<string> := [];
    var i := 0;
    while i < |v|
      invariant 0 <= i <= |v|
      invariant names == v[..i]
    {
      names := names + [v[i]];
      i := i + 1;
    }
    assert names == v;
    r := Join(names, ", ");
  }

  // ----- what the printer and the walker write -----

  /** printLevel: the indentation of `level`, then the values separated by blanks. */
  function LevelText(level: nat, values: seq<string>): string
  {
    Repeat("  ", level) + Join(values, " ")
  }

  /** A line printLevel writes ends with its last value. */
  lemma LevelTextEnds(level: nat, values: seq<string>)
    requires |values| > 0
    ensures HasSuffix(LevelText(level, values), values[|values| - 1])
  {
    JoinEnds(values, " ");
    SuffixExtendLeft(Repeat("  ", level), Join(values, " "), values[|values| - 1]);
  }

  /** printValue: "vtype names", then " typedef" and " = value" when present, then a newline. */
  function ValueText(level: nat, vtype: string, names: string, typedef: string, value: string): string
  {
    LevelText(level, [vtype, names])
    + (if |typedef| > 0 then SP + typedef else "")
    + (if |value| > 0 then " = " + value else "")
    + "\n"
  }

  /** printValue ends its line. */
  lemma ValueTextEnds(level: nat, vtype: string, names: string, typedef: string, value: string)
    ensures HasSuffix(ValueText(level, vtype, names, typedef, value), NL)
  {
    var t := ValueText(level, vtype, names, typedef, value);
    assert t[|t| - 1..] == NL;
  }

  /** What Visit prints for a node kind it has no case for. */
  function NodePlaceholder(kind: string): (r: string)
    ensures HasSuffix(r, NL)
  {
    var r := "/* " + Dump(kind) + " */\n";
    assert r[|r| - 1..] == NL;
    r
  }

  /** The statement kinds Visit has no case for. */
  predicate UnhandledStmt(s: Stmt)
  {
    !(s.BlockStmt? || s.IfStmt? || s.ReturnStmt? || s.ExprStmt? || s.DeclStmt? || s.AssignStmt?)
  }

  /** The text Visit writes for a statement when the printer is at level `L`; it always ends a line. */
  function StmtText(s: Stmt, L: nat): (r: string)
    ensures HasSuffix(r, NL)
    decreases s, 1
  {
    match s
    case BlockStmt(list) =>
      LevelTextEnds(L, ["}", NL]);
      SuffixExtendLeft("{" + NL + StmtsText(list, L + UP), LevelText(L, ["}", NL]), NL);
      "{" + NL + StmtsText(list, L + UP) + LevelText(L, ["}", NL])
    case IfStmt(_, cond, body, els) =>
      IfEnds(LevelText(L, ["if (", ExprText(cond), ") "]), StmtText(body, L),
        if els.Some? then LevelText(L, ["else "]) + StmtText(els.value, L) else "",
        if els.Some? then StmtText(els.value, L) else "");
      LevelText(L, ["if (", ExprText(cond), ") "]) + StmtText(body, L)
      + (if els.Some? then LevelText(L, ["else "]) + StmtText(els.value, L) else "")
    case ReturnStmt(results) =>
      LevelTextEnds(L, ["return", ExprListText(results), NL]);
      LevelText(L, ["return", ExprListText(results), NL])
    case ExprStmt(x) =>
      LevelTextEnds(L, [ExprText(x), NL]);
      LevelText(L, [ExprText(x), NL])
    case DeclStmt(decl) => DeclText(decl, L)
    case AssignStmt(lhs, tok, rhs) =>
      LevelTextEnds(L, [ExprListText(lhs), tok, ExprListText(rhs), NL]);
      LevelText(L, [ExprListText(lhs), tok, ExprListText(rhs), NL])
    case _ => NodePlaceholder(StmtKind(s))
  }

  /** An if statement ends with its else branch, or with its body when there is none. */
  lemma IfEnds(head: string, body: string, els: string, last: string)
    requires HasSuffix(body, NL) && (els == "" || (HasSuffix(last, NL) && HasSuffix(els, last)))
    ensures HasSuffix(head + body + els, NL)
  {
    if els == "" {
      assert head + body + els == head + body;
      SuffixExtendLeft(head, body, NL);
    } else {
      assert HasSuffix(els, NL) by {
        assert els[|els| - |NL|..] == last[|last| - |NL|..];
      }
      SuffixExtendLeft(head + body, els, NL);
    }
  }

  function StmtsText(ss: seq<Stmt>, L: nat): (r: string)
    ensures |ss| > 0 ==> HasSuffix(r, NL)
    decreases ss, 0
  {
    if |ss| == 0 then ""
    else
      SuffixExtendLeft(StmtsText(ss[..|ss| - 1], L), StmtText(ss[|ss| - 1], L), NL);
      StmtsText(ss[..|ss| - 1], L) + StmtText(ss[|ss| - 1], L)
  }

  /** The text of a spec inside a declaration whose token is `tok`. */
  function SpecText(sp: Spec, tok: string, L: nat): (r: string)
    ensures HasSuffix(r, NL)
  {
    match sp
    case ImportSpec(alias, path) =>
      LevelTextEnds(L, ["import", IdentString(alias), path, NL]);
      LevelText(L, ["import", IdentString(alias), path, NL])
    case TypeSpec(name, typ) =>
      LevelTextEnds(L, ["type", name, ExprText(typ), NL]);
      LevelText(L, ["type", name, ExprText(typ), NL])
    case ValueSpec(names, typ, values) =>
      ValueTextEnds(L, tok, ParseNames(names), ExprText(typ), ExprListText(values));
      ValueText(L, tok, ParseNames(names), ExprText(typ), ExprListText(values))
  }

  function SpecsText(sps: seq<Spec>, tok: string, L: nat): (r: string)
    ensures |sps| > 0 ==> HasSuffix(r, NL)
  {
    if |sps| == 0 then ""
    else
      SuffixExtendLeft(SpecsText(sps[..|sps| - 1], tok, L), SpecText(sps[|sps| - 1], tok, L), NL);
      SpecsText(sps[..|sps| - 1], tok, L) + SpecText(sps[|sps| - 1], tok, L)
  }

  /** The text of a declaration: a blank line, then the specs or the function header and body; it always ends a line. */
  function DeclText(d: Decl, L: nat): (r: string)
    ensures HasSuffix(r, NL)
    decreases d, 1
  {
    match d
    case GenDecl(tok, specs) =>
      assert |specs| == 0 ==> NL + SpecsText(specs, tok, L) == NL;
      if |specs| > 0 then SuffixExtendLeft(NL, SpecsText(specs, tok, L), NL); NL + SpecsText(specs, tok, L)
      else NL + SpecsText(specs, tok, L)
    case FuncDecl(recv, name, params, results, body) =>
      SuffixExtendLeft(NL + LevelText(L, ["func", FieldListText(recv, true), name, FieldListText(params, false), FieldListText(results, true)]),
        StmtText(body, L), NL);
      NL + LevelText(L, ["func", FieldListText(recv, true), name, FieldListText(params, false), FieldListText(results, true)])
      + StmtText(body, L)
    case BadDecl => NodePlaceholder("BadDecl")
  }

  function DeclsText(ds: seq<Decl>, L: nat): string
  {
    if |ds| == 0 then "" else DeclsText(ds[..|ds| - 1], L) + DeclText(ds[|ds| - 1], L)
  }

  function FileText(f: File, L: nat): string
  {
    LevelText(L, ["package", f.name, NL]) + DeclsText(f.decls, L)
  }

  /** The text of any node; `tok` is the token of the enclosing declaration, read by a ValueSpec. */
  function NodeText(n: Node, tok: string, L: nat): string
  {
    match n
    case NilNode => ""
    case FileNode(f) => FileText(f, L)
    case DeclNode(d) => DeclText(d, L)
    case SpecNode(sp) => SpecText(sp, tok, L)
    case StmtNode(s) => StmtText(s, L)
    case OtherNode(kind) => NodePlaceholder(kind)
  }

  /** The nodes Visit prints a placeholder for and returns the walker for. */
  predicate UnhandledNode(n: Node)
  {
    n.OtherNode? || (n.DeclNode? && n.decl.BadDecl?) || (n.StmtNode? && UnhandledStmt(n.stmt))
  }

  // ----- the printer -----

  class GoPrinter {
    var level: int
    /** What has been written to standard output so far. */
    var out: string

    constructor ()
      ensures level == 0 && out == ""
    {
      level := 0;
      out := "";
    }

    method UpdateLevel(delta: int)
      modifies this
      ensures level == old(level) + delta && out == old(out)
    {
      level := level + delta;
    }

    /** indent: two blanks per level. */
    function Indent(): (r: string)
      requires level >= 0
      reads this
      ensures |r| == 2 * level && forall i :: 0 <= i < |r| ==> r[i] == ' '
    {
      IndentIsBlanks(level);
      Repeat("  ", level)
    }

    /** fmt.Print of strings: the text goes to standard output as it is. */
    method Write(text: string)
      modifies this
      ensures out == old(out) + text && level == old(level)
    {
      out := out + text;
    }

    method PrintLevel(values: seq<string>)
      requires level >= 0
      modifies this
      ensures out == old(out) + LevelText(old(level), values) && level == old(level)
    {
      Write(Indent() + Join(values, " "));
    }

    method PrintPackage(name: string)
      requires level >= 0
      modifies this
      ensures out == old(out) + LevelText(old(level), ["package", name, NL]) && level == old(level)
    {
      PrintLevel(["package", name, NL]);
    }

    method PrintImport(name: string, path: string)
      requires level >= 0
      modifies this
      ensures out == old(out) + LevelText(old(level), ["import", name, path, NL]) && level == old(level)
    {
      PrintLevel(["import", name, path, NL]);
    }

    method PrintType(name: string, typedef: string)
      requires level >= 0
      modifies this
      ensures out == old(out) + LevelText(old(level), ["type", name, typedef, NL]) && level == old(level)
    {
      PrintLevel(["type", name, typedef, NL]);
    }

    method PrintValue(vtype: string, names: string, typedef: string, value: string)
      requires level >= 0
      modifies this
      ensures out == old(out) + ValueText(old(level), vtype, names, typedef, value) && level == old(level)
    {
      ghost var o := out;
      PrintLevel([vtype, names]);
      ghost var a := LevelText(level, [vtype, names]);
      ghost var b := if |typedef| > 0 then SP + typedef else "";
      ghost var c := if |value| > 0 then " = " + value else "";
      if |typedef| > 0 {
        Write(SP + typedef);
      }
      assert out == o + a + b;
      if |value| > 0 {
        Write(" = " + value);
      }
      assert out == o + a + b + c;
      Write("\n");
    }
  }

  // ----- the walker -----

  datatype GoWalker = GoWalker(p: GoPrinter, parent: Node)
  {
    /**
     * Visit: nil does nothing; every other node writes its text at the
     * printer's level, leaves the level as it found it, and the walker is
     * returned (true) exactly for the kinds it has no case for.
     */
    method Visit(node: Node) returns (ret: bool)
      requires p.level >= 0 && ParentFits(node, parent)
      modifies p
      ensures p.level == old(p.level)
      ensures p.out == old(p.out) + NodeText(node, GenDeclTok(parent), old(p.level))
      ensures ret <==> UnhandledNode(node)
    {
      ret := false;
      match node {
        case NilNode =>
        case FileNode(f) =>
          VisitFile(f);
        case DeclNode(d) =>
          ret := VisitDecl(d);
        case SpecNode(sp) =>
          VisitSpec(sp);
        case StmtNode(s) =>
          ret := VisitStmt(s);
        case OtherNode(kind) =>
          p.Write(NodePlaceholder(kind));
          ret := true;
      }
    }

    method VisitFile(f: File)
      requires p.level >= 0
      modifies p
      ensures p.level == old(p.level)
      ensures p.out == old(p.out) + FileText(f, old(p.level))
    {
      ghost var o, L := p.out, p.level;
      var w := this.(parent := FileNode(f));
      p.PrintPackage(f.name);
      w.VisitDecls(f.decls);
      Grow(o, LevelText(L, ["package", f.name, NL]), DeclsText(f.decls, L));
    }

    /** The loop over a file's declarations. */
    method VisitDecls(ds: seq<Decl>)
      requires p.level >= 0
      modifies p
      ensures p.level == old(p.level)
      ensures p.out == old(p.out) + DeclsText(ds, old(p.level))
    {
      ghost var L, P0 := p.level, p.out;
      var i := 0;
      while i < |ds|
        invariant 0 <= i <= |ds|
        invariant p.level == L
        invariant p.out == P0 + DeclsText(ds[..i], L)
      {
        assert ds[..i + 1][..i] == ds[..i];
        ghost var before := DeclsText(ds[..i], L);
        var _ := VisitDecl(ds[i]);
        Grow(P0, before, DeclText(ds[i], L));
        i := i + 1;
      }
      assert ds[..i] == ds;
    }

    method VisitDecl(d: Decl) returns (ret: bool)
      requires p.level >= 0
      modifies p
      decreases d, 1
      ensures p.level == old(p.level)
      ensures p.out == old(p.out) + DeclText(d, old(p.level))
      ensures ret <==> d.BadDecl?
    {
      ret := false;
      var w := this.(parent := DeclNode(d));
      match d {
        case GenDecl(tok, specs) =>
          w.VisitGenDecl(d);
        case FuncDecl(recv, name, params, results, body) =>
          w.VisitFuncDecl(d);
        case BadDecl =>
          p.Write(NodePlaceholder("BadDecl"));
          ret := true;
      }
    }

    /** A general declaration: a blank line, then each spec, visited with the declaration as parent. */
    method VisitGenDecl(d: Decl)
      requires d.GenDecl? && parent == DeclNode(d) && p.level >= 0
      modifies p
      decreases d, 0
      ensures p.level == old(p.level)
      ensures p.out == old(p.out) + DeclText(d, old(p.level))
    {
      ghost var o, L := p.out, p.level;
      p.Write(NL);
      VisitSpecs(d.specs);
      Grow(o, NL, SpecsText(d.specs, d.tok, L));
    }

    /** The loop over a general declaration's specs; the walker's parent is that declaration. */
    method VisitSpecs(sps: seq<Spec>)
      requires parent.DeclNode? && parent.decl.GenDecl? && p.level >= 0
      modifies p
      ensures p.level == old(p.level)
      ensures p.out == old(p.out) + SpecsText(sps, parent.decl.tok, old(p.level))
    {
      ghost var L, P0, tok := p.level, p.out, parent.decl.tok;
      var i := 0;
      while i < |sps|
        invariant 0 <= i <= |sps|
        invariant p.level == L
        invariant p.out == P0 + SpecsText(sps[..i], tok, L)
      {
        assert sps[..i + 1][..i] == sps[..i];
        ghost var before := SpecsText(sps[..i], tok, L);
        VisitSpec(sps[i]);
        Grow(P0, before, SpecText(sps[i], tok, L));
        i := i + 1;
      }
      assert sps[..i] == sps;
    }

    /** A function declaration: a blank line, its header at the printer's level, then its body. */
    method VisitFuncDecl(d: Decl)
      requires d.FuncDecl? && p.level >= 0
      modifies p
      decreases d, 0
      ensures p.level == old(p.level)
      ensures p.out == old(p.out) + DeclText(d, old(p.level))
    {
      ghost var o, L := p.out, p.level;
      p.Write(NL);
      p.PrintLevel(["func", FieldListText(d.recv, true), d.name, FieldListText(d.params, false), FieldListText(d.results, true)]);
      ghost var h := p.out;
      var _ := VisitStmt(d.body);
      assert p.out == h + StmtText(d.body, L);
    }

    /** A spec's text; a ValueSpec takes its keyword from the GenDecl it is visited from. */
    method VisitSpec(sp: Spec)
      requires p.level >= 0 && ParentFits(SpecNode(sp), parent)
      modifies p
      ensures p.level == old(p.level)
      ensures p.out == old(p.out) + SpecText(sp, GenDeclTok(parent), old(p.level))
    {
      match sp {
        case ImportSpec(alias, path) =>
          p.PrintImport(IdentString(alias), path);
        case TypeSpec(name, typ) =>
          p.PrintType(name, ExprText(typ));
        case ValueSpec(names, typ, values) =>
          var vtype := parent.decl.tok;
          p.PrintValue(vtype, ParseNames(names), ExprText(typ), ExprListText(values));
      }
    }

    method VisitStmt(s: Stmt) returns (ret: bool)
      requires p.level >= 0
      modifies p
      decreases s, 2
      ensures p.level == old(p.level)
      ensures p.out == old(p.out) + StmtText(s, old(p.level))
      ensures ret <==> UnhandledStmt(s)
    {
      ret := false;
      var w := this.(parent := StmtNode(s));
      match s {
        case BlockStmt(list) =>
          w.VisitBlock(s);
        case IfStmt(_, cond, body, els) =>
          w.VisitIf(s);
        case ReturnStmt(results) =>
          p.PrintLevel(["return", ExprListText(results), NL]);
        case ExprStmt(x) =>
          p.PrintLevel([ExprText(x), NL]);
        case DeclStmt(decl) =>
          var _ := w.VisitDecl(decl);
        case AssignStmt(lhs, tok, rhs) =>
          p.PrintLevel([ExprListText(lhs), tok, ExprListText(rhs), NL]);
        case _ =>
          p.Write(NodePlaceholder(StmtKind(s)));
          ret := true;
      }
    }

    /** A block: "{", its statements one level deeper, then "}" back at the block's level. */
    method VisitBlock(s: Stmt)
      requires s.BlockStmt? && p.level >= 0
      modifies p
      decreases s, 1
      ensures p.level == old(p.level)
      ensures p.out == old(p.out) + StmtText(s, old(p.level))
    {
      ghost var o, L := p.out, p.level;
      p.Write("{" + NL);
      p.UpdateLevel(UP);
      VisitStmts(s.list);
      ghost var inner := StmtsText(s.list, L + UP);
      p.UpdateLevel(DOWN);
      p.PrintLevel(["}", NL]);
      Grow3(o, "{" + NL, inner, LevelText(L, ["}", NL]));
    }

    /** The loop over a block's statements. */
    method VisitStmts(ss: seq<Stmt>)
      requires p.level >= 0
      modifies p
      decreases ss, 0
      ensures p.level == old(p.level)
      ensures p.out == old(p.out) + StmtsText(ss, old(p.level))
    {
      ghost var L, P0 := p.level, p.out;
      var i := 0;
      while i < |ss|
        invariant 0 <= i <= |ss|
        invariant p.level == L
        invariant p.out == P0 + StmtsText(ss[..i], L)
      {
        assert ss[..i + 1][..i] == ss[..i];
        ghost var before := StmtsText(ss[..i], L);
        var _ := VisitStmt(ss[i]);
        Grow(P0, before, StmtText(ss[i], L));
        i := i + 1;
      }
      assert ss[..i] == ss;
    }

    /** An if statement: its header, its body, and "else " with the else branch when there is one. */
    method VisitIf(s: Stmt)
      requires s.IfStmt? && p.level >= 0
      modifies p
      decreases s, 1
      ensures p.level == old(p.level)
      ensures p.out == old(p.out) + StmtText(s, old(p.level))
    {
      ghost var o, L := p.out, p.level;
      p.PrintLevel(["if (", ExprText(s.cond), ") "]);
      var _ := VisitStmt(s.body);
      ghost var h := p.out;
      ghost var head := LevelText(L, ["if (", ExprText(s.cond), ") "]);
      assert h == o + head + StmtText(s.body, L);
      VisitElse(s.els);
      ghost var tail := if s.els.Some? then LevelText(L, ["else "]) + StmtText(s.els.value, L) else "";
      assert p.out == h + tail;
      assert StmtText(s, L) == head + StmtText(s.body, L) + tail;
    }

    /** The else part of an if statement: nothing without one, "else " and the branch with one. */
    method VisitElse(els: Option<Stmt>)
      requires p.level >= 0
      modifies p
      decreases els, 0
      ensures p.level == old(p.level)
      ensures p.out == old(p.out) + (if els.Some? then LevelText(old(p.level), ["else "]) + StmtText(els.value, old(p.level)) else "")
    {
      if els.Some? {
        p.PrintLevel(["else "]);
        var _ := VisitStmt(els.value);
      }
    }
  }
}
