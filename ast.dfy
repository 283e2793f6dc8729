/**
 * The already-parsed Go syntax tree that both walkers read (the subset of
 * go/ast they dispatch on). An absent child that go/ast leaves as a nil
 * interface is `NilExpr`, `NilFields` or `None`; kinds the walkers do not
 * handle are kept as `OtherExpr`/`OtherStmt`/`OtherNode` with their go/ast
 * type name.
 */
module GoAst {
  import opened GoStrings

  /** ast.ChanDir: send-only, receive-only, or both. */
  datatype ChanDir = Send | Recv | Both

  datatype Expr =
    | NilExpr
    | Ident(name: string)
    | StarExpr(x: Expr)
    | ArrayType(len: Expr, elt: Expr)
    | MapType(key: Expr, value: Expr)
    | InterfaceType(methods: FieldList)
    | StructType(fields: FieldList)
    | ChanType(dir: ChanDir, value: Expr)
    | FuncType(params: FieldList, results: FieldList)
    | BasicLit(lit: string)
    | CompositeLit(typ: Expr, elts: seq<Expr>)
    | Ellipsis(elt: Expr)
    | UnaryExpr(op: string, x: Expr)
    | BinaryExpr(x: Expr, op: string, y: Expr)
    | IndexExpr(x: Expr, index: Expr)
    | KeyValueExpr(key: Expr, value: Expr)
    | SliceExpr(x: Expr, low: Expr, high: Expr, max: Expr)
    | SelectorExpr(x: Expr, sel: string)
    | CallExpr(fun: Expr, args: seq<Expr>, ellipsis: nat)  // ellipsis: position of "...", 0 if none
    | TypeAssertExpr(x: Expr, typ: Expr)
    | ParenExpr(x: Expr)
    | FuncLit(typ: Expr, body: Stmt)
    | OtherExpr(kind: string)

  /** ast.FieldList, possibly nil, and ast.Field. */
  datatype FieldList = NilFields | FieldList(list: seq<Field>)
  datatype Field = Field(names: seq<string>, typ: Expr)

  datatype Stmt =
    | BlockStmt(list: seq<Stmt>)
    | IfStmt(init: Option<Stmt>, cond: Expr, body: Stmt, els: Option<Stmt>)
    | ForStmt(init: Option<Stmt>, cond: Expr, post: Option<Stmt>, body: Stmt)
    | SwitchStmt(init: Option<Stmt>, tag: Expr, body: Stmt)
    | TypeSwitchStmt(init: Option<Stmt>, assign: Stmt, body: Stmt)
    | CaseClause(exprs: seq<Expr>, stmts: seq<Stmt>)
    | RangeStmt(key: Expr, value: Expr, x: Expr, body: Stmt)
    | BranchStmt(tok: string, target: Option<string>)  // target: the optional label
    | DeferStmt(call: Expr)
    | GoStmt(call: Expr)
    | ReturnStmt(results: seq<Expr>)
    | ExprStmt(x: Expr)
    | DeclStmt(decl: Decl)
    | AssignStmt(lhs: seq<Expr>, tok: string, rhs: seq<Expr>)
    | IncDecStmt(x: Expr, tok: string)
    | EmptyStmt
    | OtherStmt(kind: string)

  datatype Decl =
    | GenDecl(tok: string, specs: seq<Spec>)
    | FuncDecl(recv: FieldList, name: string, params: FieldList, results: FieldList, body: Stmt)
    | BadDecl

  datatype Spec =
    | ImportSpec(alias: Option<string>, path: string)
    | TypeSpec(name: string, typ: Expr)
    | ValueSpec(names: seq<string>, typ: Expr, values: seq<Expr>)

  datatype File = File(name: string, decls: seq<Decl>)

  /** Any node a walker can be handed (ast.Node), or nil. */
  datatype Node =
    | NilNode
    | FileNode(file: File)
    | DeclNode(decl: Decl)
    | SpecNode(spec: Spec)
    | StmtNode(stmt: Stmt)
    | OtherNode(kind: string)

  /** The token of the declaration a node is, when it is a GenDecl ("const", "var", ...). */
  function GenDeclTok(n: Node): string
  {
    if n.DeclNode? && n.decl.GenDecl? then n.decl.tok else ""
  }

  /** A visit of `n` would read the declaration token of `parent`: only a ValueSpec does, and it needs a GenDecl there. */
  predicate ParentFits(n: Node, parent: Node)
  {
    n.SpecNode? && n.spec.ValueSpec? ==> parent.DeclNode? && parent.decl.GenDecl?
  }

  /** The go/ast type name of a statement, as a structural dump shows it. */
  function StmtKind(s: Stmt): string
  {
    match s
    case BlockStmt(_) => "BlockStmt"
    case IfStmt(_, _, _, _) => "IfStmt"
    case ForStmt(_, _, _, _) => "ForStmt"
    case SwitchStmt(_, _, _) => "SwitchStmt"
    case TypeSwitchStmt(_, _, _) => "TypeSwitchStmt"
    case CaseClause(_, _) => "CaseClause"
    case RangeStmt(_, _, _, _) => "RangeStmt"
    case BranchStmt(_, _) => "BranchStmt"
    case DeferStmt(_) => "DeferStmt"
    case GoStmt(_) => "GoStmt"
    case ReturnStmt(_) => "ReturnStmt"
    case ExprStmt(_) => "ExprStmt"
    case DeclStmt(_) => "DeclStmt"
    case AssignStmt(_, _, _) => "AssignStmt"
    case IncDecStmt(_, _) => "IncDecStmt"
    case EmptyStmt => "EmptyStmt"
    case OtherStmt(k) => k
  }

  /** The go/ast type name of an expression. */
  function ExprKind(e: Expr): string
  {
    match e
    case NilExpr => "nil"
    case Ident(_) => "Ident"
    case StarExpr(_) => "StarExpr"
    case ArrayType(_, _) => "ArrayType"
    case MapType(_, _) => "MapType"
    case InterfaceType(_) => "InterfaceType"
    case StructType(_) => "StructType"
    case ChanType(_, _) => "ChanType"
    case FuncType(_, _) => "FuncType"
    case BasicLit(_) => "BasicLit"
    case CompositeLit(_, _) => "CompositeLit"
    case Ellipsis(_) => "Ellipsis"
    case UnaryExpr(_, _) => "UnaryExpr"
    case BinaryExpr(_, _, _) => "BinaryExpr"
    case IndexExpr(_, _) => "IndexExpr"
    case KeyValueExpr(_, _) => "KeyValueExpr"
    case SliceExpr(_, _, _, _) => "SliceExpr"
    case SelectorExpr(_, _) => "SelectorExpr"
    case CallExpr(_, _, _) => "CallExpr"
    case TypeAssertExpr(_, _) => "TypeAssertExpr"
    case ParenExpr(_) => "ParenExpr"
    case FuncLit(_, _) => "FuncLit"
    case OtherExpr(k) => k
  }

  /**
   * The `%#v` structural dump of a node of the given kind, reduced to its
   * type name: the field values that Go's reflection would print are not
   * modelled.
   */
  function Dump(kind: string): (r: string)
    ensures HasPrefix(r, "&ast.") && HasSuffix(r, "{...}")
  {
    "&ast." + kind + "{...}"
  }

  /**
   * identString (walker/walker.go and go-walk.go define it alike): the
   * identifier's name, or "" for a nil identifier.
   */
  function IdentString(i: Option<string>): (r: string)
    ensures i.None? ==> r == ""
    ensures i.Some? ==> r == i.value
  {
    if i.Some? then i.value else ""
  }

  /** ifTrue (walker/walker.go and go-walk.go define it alike): `val` when `cond` holds, "" otherwise. */
  function IfTrue(val: string, cond: bool): (r: string)
    ensures cond ==> r == val
    ensures !cond ==> r == ""
  {
    if cond then val else ""
  }

  /**
   * parseNames: the identifiers in order, separated by ", ". The text
   * starts with the first identifier and ends with the last, and, since an
   * identifier holds no comma, it holds a comma exactly when there are
   * several identifiers.
   */
  function ParseNames(names: seq<string>): (r: string)
    ensures |names| == 0 ==> r == ""
    ensures |names| > 0 ==> HasPrefix(r, names[0]) && HasSuffix(r, names[|names| - 1])
    ensures (forall i :: 0 <= i < |names| ==> ',' !in names[i]) ==> (',' in r <==> |names| > 1)
  {
    if |names| == 0 then ""
    else
      JoinEnds(names, ", ");
      JoinComma(names);
      Join(names, ", ")
  }
}
