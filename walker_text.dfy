/**
 * What the tree walker of walker/walker.go emits, as pure functions of the
 * syntax tree.
 *
 * The walker drives a printer through calls such as PrintLevel or PrintIf;
 * the printer is abstract here: a `Render` gives the text that one call
 * appends to the printer's writer at a given indentation level. The walker
 * itself renders expressions (parseExpr and friends); only a function
 * literal's body goes back through the printer, captured by BufferVisit.
 */
module WalkerText {
  import opened GoStrings
  import opened GoAst

  /** One call the walker makes on its printer, with the strings it passes. */
  datatype Call =
    | PrintPackage(name: string)
    | PrintImport(name: string, path: string)
    | PrintType(name: string, typ: string)
    | PrintValue(vtype: string, names: string, typ: string, values: string)
    | PrintFunc(receiver: string, name: string, params: string, results: string)
    | Print(text: string)
    | PrintLevel(parts: seq<string>)
    | PrintIf(init: string, cond: string)
    | SameLine
    | PrintElse
    | PrintFor(init: string, cond: string, post: string)
    | PrintSwitch(init: string, tag: string)
    | PrintStmt(stmt: string, expr: string)
    | PrintEmpty

  /** The text a printer appends for a call made at an indentation level. */
  type Render = (Call, int) -> string

  /** printer.UP and printer.DOWN. */
  const UP: int := 1
  const DOWN: int := -1

  /** wrapIf: a non-empty result list is parenthesised, an empty one stays empty. */
  function WrapIf(val: string): (r: string)
    ensures |val| == 0 ==> r == ""
    ensures |val| > 0 ==> |r| == |val| + 2 && r[0] == '(' && r[|r| - 1] == ')' && r[1..|r| - 1] == val
  {
    if |val| > 0 then "(" + val + ")" else ""
  }

  /** The keyword of a channel type for its direction. */
  function ChanKeyword(dir: ChanDir): string
  {
    if dir == Send then "chan<-" else if dir == Recv then "<-chan" else "chan"
  }

  /** The visible placeholder for an expression kind parseExpr does not know. */
  function ExprPlaceholder(kind: string): string
  {
    "/* Expr: " + Dump(kind) + " */"
  }

  /** The visible placeholder Visit prints for a node kind it does not know. */
  function NodePlaceholder(kind: string): string
  {
    "/* Node: " + Dump(kind) + " */\n"
  }

  /**
   * parseExpr: the Go text of an expression; a function literal's body is
   * captured at level `L`. The cases are grouped as the walker's methods
   * group them.
   */
  function ExprText(e: Expr, L: int, R: Render): string
    decreases e, 3
  {
    match e
    case NilExpr => ""
    case Ident(name) => name
    case BasicLit(lit) => lit
    case OtherExpr(kind) => ExprPlaceholder(kind)
    case StarExpr(_) | ArrayType(_, _) | MapType(_, _) | InterfaceType(_) | StructType(_)
      | ChanType(_, _) | FuncType(_, _) | Ellipsis(_) =>
      TypeExprText(e, L, R)
    case UnaryExpr(_, _) | BinaryExpr(_, _, _) | ParenExpr(_) | SelectorExpr(_, _)
      | KeyValueExpr(_, _) | IndexExpr(_, _) =>
      OperatorExprText(e, L, R)
    case CompositeLit(_, _) | SliceExpr(_, _, _, _) | CallExpr(_, _, _) | TypeAssertExpr(_, _)
      | FuncLit(_, _) =>
      CompoundExprText(e, L, R)
  }

  /** The text of a type expression. */
  function TypeExprText(e: Expr, L: int, R: Render): string
    decreases e, 2
  {
    match e
    case StarExpr(x) => "*" + ExprText(x, L, R)
    case ArrayType(len, elt) => "[" + ExprText(len, L, R) + "]" + ExprText(elt, L, R)
    case MapType(key, value) => "[" + ExprText(key, L, R) + "]" + ExprText(value, L, R)
    case InterfaceType(methods) => "interface{" + FieldListText(methods, "; ", L, R) + "}"
    case StructType(fields) => "struct{" + FieldListText(fields, "; ", L, R) + "}"
    case ChanType(dir, value) => ChanKeyword(dir) + " " + ExprText(value, L, R)
    case FuncType(params, results) =>
      "(" + FieldListText(params, ", ", L, R) + ") " + WrapIf(FieldListText(results, ", ", L, R))
    case Ellipsis(elt) => "..." + ExprText(elt, L, R)
    case _ => ""
  }

  /** The text of an operator, a selector, a key-value pair or an index expression. */
  function OperatorExprText(e: Expr, L: int, R: Render): string
    decreases e, 2
  {
    match e
    case UnaryExpr(op, x) => op + ExprText(x, L, R)
    case BinaryExpr(x, op, y) => ExprText(x, L, R) + " " + op + " " + ExprText(y, L, R)
    case ParenExpr(x) => "(" + ExprText(x, L, R) + ")"
    case SelectorExpr(x, sel) => ExprText(x, L, R) + "." + sel
    case KeyValueExpr(key, value) => ExprText(key, L, R) + ": " + ExprText(value, L, R)
    case IndexExpr(x, index) => ExprText(x, L, R) + "[" + ExprText(index, L, R) + "]"
    case _ => ""
  }

  /** The text of a composite literal, a slice, a call, a type assertion or a function literal. */
  function CompoundExprText(e: Expr, L: int, R: Render): string
    decreases e, 2
  {
    match e
    case CompositeLit(typ, elts) => ExprText(typ, L, R) + "{" + ExprListText(elts, L, R) + "}"
    case SliceExpr(x, low, high, max) =>
      if max.NilExpr? then
        ExprText(x, L, R) + "[" + ExprText(low, L, R) + ":" + ExprText(high, L, R) + "]"
      else
        ExprText(x, L, R) + "[" + ExprText(low, L, R) + ":" + ExprText(high, L, R) + ":" + ExprText(max, L, R) + "]"
    case CallExpr(fun, args, ellipsis) =>
      ExprText(fun, L, R) + "(" + ExprListText(args, L, R) + IfTrue("...", ellipsis > 0) + ")"
    case TypeAssertExpr(x, typ) => ExprText(x, L, R) + ".(" + ExprOrText(typ, "type", L, R) + ")"
    case FuncLit(typ, body) => "func" + ExprText(typ, L, R) + " " + CaptureText(body, L, R)
    case _ => ""
  }

  /** The texts of the expressions, one per expression, in order. */
  function ExprTexts(es: seq<Expr>, L: int, R: Render): (r: seq<string>)
    ensures |r| == |es|
    decreases es, 0
  {
    if |es| == 0 then [] else ExprTexts(es[..|es| - 1], L, R) + [ExprText(es[|es| - 1], L, R)]
  }

  /** parseExprList */
  function ExprListText(es: seq<Expr>, L: int, R: Render): string
    decreases es, 1
  {
    Join(ExprTexts(es, L, R), ", ")
  }

  /** exprOr: the expression's text, or `v` when the expression is absent. */
  function ExprOrText(e: Expr, v: string, L: int, R: Render): string
    decreases e, 4
  {
    if e.NilExpr? then v else ExprText(e, L, R)
  }

  /** One field of parseFieldList: "names type", or just the type when the field is unnamed. */
  function FieldText(f: Field, L: int, R: Render): string
    decreases f, 2
  {
    var field := ParseNames(f.names);
    if |field| > 0 then field + " " + ExprText(f.typ, L, R) else ExprText(f.typ, L, R)
  }

  function FieldTexts(fs: seq<Field>, L: int, R: Render): (r: seq<string>)
    ensures |r| == |fs|
    decreases fs, 0
  {
    if |fs| == 0 then [] else FieldTexts(fs[..|fs| - 1], L, R) + [FieldText(fs[|fs| - 1], L, R)]
  }

  /** parseFieldList: the fields joined by `sep`; a nil list is "". */
  function FieldListText(fl: FieldList, sep: string, L: int, R: Render): string
    decreases fl, 1
  {
    if fl.NilFields? then "" else Join(FieldTexts(fl.list, L, R), sep)
  }

  /** What BufferVisit returns for a statement: its text with the white space at both ends trimmed. */
  function CaptureText(s: Stmt, L: int, R: Render): string
    decreases s, 2
  {
    TrimSpace(StmtText(s, L, R))
  }

  /** BufferVisit of a statement that may be absent: "" for an absent one. */
  function OptCaptureText(o: Option<Stmt>, L: int, R: Render): string
    decreases o, 3
  {
    if o.None? then "" else CaptureText(o.value, L, R)
  }

  /** The text Visit emits for a statement when the printer is at level `L`. */
  function StmtText(s: Stmt, L: int, R: Render): string
    decreases s, 1
  {
    var nl := R(Print("\n"), L);
    match s
    case BlockStmt(list) =>
      R(PrintLevel(["{\n"]), L) + StmtsText(list, L + UP, R) + R(PrintLevel(["}"]), L)
    case IfStmt(init, cond, body, els) =>
      R(PrintIf(OptCaptureText(init, L, R), ExprText(cond, L, R)), L)
      + StmtText(body, L, R)
      + (if els.Some? then R(SameLine, L) + R(PrintElse, L) + StmtText(els.value, L, R) else "")
      + nl
    case ForStmt(init, cond, post, body) =>
      R(PrintFor(OptCaptureText(init, L, R), ExprText(cond, L, R), OptCaptureText(post, L, R)), L)
      + StmtText(body, L, R) + nl
    case SwitchStmt(init, tag, body) =>
      R(PrintSwitch(OptCaptureText(init, L, R), ExprText(tag, L, R)), L) + StmtText(body, L, R) + nl
    case TypeSwitchStmt(init, assign, body) =>
      R(PrintSwitch(OptCaptureText(init, L, R), CaptureText(assign, L, R)), L) + StmtText(body, L, R) + nl
    case CaseClause(exprs, stmts) =>
      (if |exprs| > 0 then R(PrintLevel(["case", ExprListText(exprs, L, R), ":", "\n"]), L)
       else R(PrintLevel(["default:", "\n"]), L))
      + StmtsText(stmts, L + UP, R)
    case RangeStmt(key, value, x, body) =>
      R(PrintLevel(["for", ExprText(key, L, R), ",", ExprText(value, L, R), ":= range", ExprText(x, L, R)]), L)
      + StmtText(body, L, R) + nl
    case BranchStmt(tok, target) => R(PrintStmt(tok, IdentString(target)), L)
    case DeferStmt(call) => R(PrintStmt("defer", ExprText(call, L, R)), L)
    case GoStmt(call) => R(PrintStmt("go", ExprText(call, L, R)), L)
    case ReturnStmt(results) => R(PrintStmt("return", ExprListText(results, L, R)), L)
    case ExprStmt(x) => R(PrintLevel([ExprText(x, L, R), "\n"]), L)
    case DeclStmt(decl) => DeclText(decl, L, R)
    case AssignStmt(lhs, tok, rhs) =>
      R(PrintLevel([ExprListText(lhs, L, R), tok, ExprListText(rhs, L, R), "\n"]), L)
    case IncDecStmt(x, tok) => R(PrintLevel([ExprText(x, L, R) + tok, " "]), L)
    case EmptyStmt => R(PrintEmpty, L)
    case OtherStmt(kind) => R(Print(NodePlaceholder(kind)), L)
  }

  /** The statements' texts, in order, all at level `L`. */
  function StmtsText(ss: seq<Stmt>, L: int, R: Render): string
    decreases ss, 0
  {
    if |ss| == 0 then "" else StmtsText(ss[..|ss| - 1], L, R) + StmtText(ss[|ss| - 1], L, R)
  }

  /** The text of a spec inside a declaration whose token is `tok`. */
  function SpecText(sp: Spec, tok: string, L: int, R: Render): string
    decreases sp, 1
  {
    match sp
    case ImportSpec(alias, path) => R(PrintImport(IdentString(alias), path), L)
    case TypeSpec(name, typ) => R(PrintType(name, ExprText(typ, L, R)), L)
    case ValueSpec(names, typ, values) =>
      R(PrintValue(tok, ParseNames(names), ExprText(typ, L, R), ExprListText(values, L, R)), L)
  }

  function SpecsText(sps: seq<Spec>, tok: string, L: int, R: Render): string
    decreases sps, 0
  {
    if |sps| == 0 then "" else SpecsText(sps[..|sps| - 1], tok, L, R) + SpecText(sps[|sps| - 1], tok, L, R)
  }

  /** The text of a declaration. */
  function DeclText(d: Decl, L: int, R: Render): string
    decreases d, 1
  {
    match d
    case GenDecl(tok, specs) => SpecsText(specs, tok, L, R)
    case FuncDecl(recv, name, params, results, body) =>
      R(PrintFunc(FieldListText(recv, ", ", L, R), name, FieldListText(params, ", ", L, R),
                  FieldListText(results, ", ", L, R)), L)
      + StmtText(body, L, R) + R(Print("\n"), L)
    case BadDecl => R(Print(NodePlaceholder("BadDecl")), L)
  }

  function DeclsText(ds: seq<Decl>, L: int, R: Render): string
    decreases ds, 0
  {
    if |ds| == 0 then "" else DeclsText(ds[..|ds| - 1], L, R) + DeclText(ds[|ds| - 1], L, R)
  }

  /** The text of a whole file. */
  function FileText(f: File, L: int, R: Render): string
  {
    R(PrintPackage(f.name), L) + DeclsText(f.decls, L, R)
  }

  /** The text of any node; `tok` is the token of the enclosing declaration, read by a ValueSpec. */
  function NodeText(n: Node, tok: string, L: int, R: Render): string
  {
    match n
    case NilNode => ""
    case FileNode(f) => FileText(f, L, R)
    case DeclNode(d) => DeclText(d, L, R)
    case SpecNode(sp) => SpecText(sp, tok, L, R)
    case StmtNode(s) => StmtText(s, L, R)
    case OtherNode(kind) => R(Print(NodePlaceholder(kind)), L)
  }

  /** The node kinds Visit has no case for: it prints a placeholder for them and returns itself. */
  predicate Unhandled(n: Node)
  {
    n.OtherNode? || (n.DeclNode? && n.decl.BadDecl?) || (n.StmtNode? && n.stmt.OtherStmt?)
  }
}
