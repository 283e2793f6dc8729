/**
 * The stateful half of the C++ printer of printer/cprinter.go: the CPrinter
 * object with its indentation level, its same-line flag, the text written
 * so far, and its stack of function contexts (the linked list of CContext
 * reached through p.ctx, innermost first).
 */
module Printer {
  import opened GoStrings
  import opened CFormat

  const UP: int := 1
  const DOWN: int := -1

  /** The kinds of block the walker opens (printer.BlockType); only CONST, VAR and CODE are told apart. */
  datatype BlockType = Const | Var | Code | OtherBlock

  /** The role of a name/type pair (printer.FieldType). */
  datatype FieldType = Method | Result | Param | Field | OtherField

  /** printer.Pair: a name (possibly empty) and its C type. */
  datatype Pair = Pair(name: string, value: string)

  /**
   * CContext: the state of the function being printed: the iota counter,
   * the number of defer callbacks so far, the receiver's name, and the
   * declarations and names of the function's named results.
   */
  datatype Context = Context(iota: nat, deferred: nat, receiver: string, retDefinitions: string, retValues: string)

  /** The context PushContext installs. */
  const Fresh: Context := Context(0, 0, "", "", "")

  /** CContext.Selector: the receiver is reached through `this->`, any other object with a dot. */
  function Selector(ctx: seq<Context>, s: string): (r: string)
    ensures r == "this->" <==> |ctx| > 0 && ctx[0].receiver == s
    ensures r != "this->" ==> r == s + "."
  {
    if |ctx| > 0 && ctx[0].receiver == s then "this->"
    else
      assert |s + "."| != 6 || (s + ".")[5] != "this->"[5];
      s + "."
  }

  /** CPrinter.Chop: the trailing ", " separators of a list removed. */
  function Chop(line: string): (r: string)
    ensures HasPrefix(line, r)
    ensures |r| > 0 ==> r[|r| - 1] != ',' && r[|r| - 1] != ' '
  {
    TrimRight(line, COMMA)
  }

  /** Chop removes separator characters and nothing else. */
  lemma ChopDropped(line: string)
    ensures forall i :: |Chop(line)| <= i < |line| ==> line[i] == ',' || line[i] == ' '
  {
    TrimRightDropped(line, COMMA);
  }

  /** CPrinter.indent: nothing right after SameLine, otherwise two blanks per level. */
  function IndentText(sameline: bool, level: int): (r: string)
    requires sameline || level >= 0
    ensures sameline ==> r == ""
    ensures !sameline ==> |r| == 2 * level
  {
    if sameline then "" else IndentIsBlanks(level); Repeat("  ", level)
  }

  /** The indentation is made of blanks only. */
  lemma IndentBlanks(sameline: bool, level: int)
    requires sameline || level >= 0
    ensures forall i :: 0 <= i < |IndentText(sameline, level)| ==> IndentText(sameline, level)[i] == ' '
  {
    if !sameline {
      IndentIsBlanks(level);
    }
  }

  function BlockOpen(b: BlockType): string
  {
    if b == Const || b == Var then "(" else "{"
  }

  function BlockClose(b: BlockType): string
  {
    if b == Const || b == Var then ")" else "}"
  }


  /** What PrintLevel writes: the indentation, the values joined by blanks, and the terminator. */
  function Line(sameline: bool, level: int, values: seq<string>, term: string): string
    requires sameline || level >= 0
  {
    IndentText(sameline, level) + Join(values, " ") + term
  }

  /** What PrintBlockStart writes: the opening bracket, then, in a function body, the result declarations one level deeper. */
  function BlockStartText(sameline: bool, level: int, b: BlockType, defs: string): string
    requires sameline || level >= 0
    requires b == Code && |defs| > 0 ==> level + 1 >= 0
  {
    Line(sameline, level, [BlockOpen(b)], NL) + (if b == Code && |defs| > 0 then Line(false, level + 1, [defs], NL) else "")
  }

  /** What PrintBlockEnd writes: the closing bracket, one level further out. */
  function BlockEndText(sameline: bool, level: int, b: BlockType): string
    requires sameline || level >= 1
  {
    Line(sameline, level - 1, [BlockClose(b)], NONE)
  }

  function PackageText(sameline: bool, level: int, name: string): string
    requires level >= 0
  {
    Line(sameline, level, ["//package", name], NL) + Line(false, level, ["#include <go.h>"], NL)
  }

  /** The include line PrintImport adds for the packages the runtime library provides. */
  function ImportHeader(path: string): (r: Option<string>)
    ensures r.Some? <==> path in ["\"fmt\"", "\"sync\"", "\"errors\"", "\"time\""]
  {
    if path == "\"fmt\"" then Some("#include <fmt.h>")
    else if path == "\"sync\"" then Some("#include <sync.h>")
    else if path == "\"errors\"" then Some("#include <errors.h>")
    else if path == "\"time\"" then Some("#include <go_time.h>")
    else None
  }

  function ImportText(sameline: bool, level: int, name: string, path: string): string
    requires sameline || level >= 0
    requires ImportHeader(path).Some? ==> level >= 0
  {
    var h := ImportHeader(path);
    Line(sameline, level, ["//import", name, path], NL) + (if h.Some? then Line(false, level, [h.value], NL) else "")
  }

  function TypeText(sameline: bool, level: int, name: string, typedef: string): string
    requires sameline || level >= 0
  {
    if Contains(typedef, "%") then Line(sameline, level, ["typedef", FillTemplate(typedef, "(" + name + ")")], SEMI)
    else Line(sameline, level, ["typedef", typedef, name], SEMI)
  }

  /** A variable or constant declaration as PrintValue prints it. */
  datatype ValueDecl = ValueDecl(vtype: string, typedef: string, names: string, values: string)

  /**
   * PrintValue's rewriting of a declaration (once "var" is dropped and an
   * implicit iota filled in): a missing type is guessed from the value; an
   * array type's "[n]" moves onto the names; tuples are tied.
   */
  function ValueDeclOf(vtype: string, typedef: string, names: string, values: string, ntuple: bool, vtuple: bool): (r: ValueDecl)
    ensures r.vtype == vtype
    ensures |r.values| > 0 <==> |values| > 0
    ensures |typedef| == 0 ==> r.typedef == GuessType(values).0
    ensures '[' !in typedef && |typedef| > 0 ==> r.typedef == typedef
    ensures '[' !in typedef && !ntuple ==> r.names == names
    ensures !vtuple ==> r.values == values
    ensures '[' !in typedef && ntuple && |values| > 0 ==> r.names == "tie(" + names + ")"
    ensures '[' in typedef ==> var i := IndexByte(typedef, '[');
      r.typedef == typedef[..i]
      && r.names == (if ntuple && |values| > 0 then "tie(" + names + typedef[i..] + ")" else names + typedef[i..])
    ensures vtuple && |values| > 0 ==> r.values == "make_tuple(" + values + ")"
  {
    var g := if |typedef| == 0 then GuessType(values) else (typedef, values);
    var i := IndexByte(typedef, '[');
    var t := if i >= 0 then typedef[..i] else g.0;
    var ns := if i >= 0 then names + typedef[i..] else names;
    var v := g.1;
    ValueDecl(vtype, t, if ntuple && |v| > 0 then "tie(" + ns + ")" else ns,
              if |v| > 0 && vtuple then "make_tuple(" + v + ")" else v)
  }

  /** What PrintValue writes for a declaration. */
  function ValueText(sameline: bool, level: int, d: ValueDecl): string
    requires sameline || level >= 0
  {
    Line(sameline, level, [d.vtype, d.typedef, d.names], NONE)
      + (if |d.values| > 0 then Join([" =", d.values], " ") else "")
      + Join([";\n"], " ")
  }

  /** The name of the k-th defer callback of a function. */
  function DeferName(k: nat): string
  {
    "defer" + Itoa(k)
  }

  /** What PrintStmt hands to PrintLevel; the k-th defer callback is named DeferName(k). */
  function StmtValues(stmt: string, expr: string, k: nat): (r: seq<string>)
    ensures stmt == "go" ==> Join(r, " ") == "Goroutine([](){ " + expr + "; })"
    ensures stmt == "defer" ==> Join(r, " ") == "Deferred " + DeferName(k) + "([](){ " + expr + "; })"
    ensures stmt != "go" && stmt != "defer" && |stmt| > 0 ==> Join(r, " ") == stmt + " " + expr
    ensures stmt == "" ==> Join(r, " ") == expr
  {
    if stmt == "go" then ["Goroutine([](){ " + expr + "; })"]
    else if stmt == "defer" then ["Deferred defer" + Itoa(k) + "([](){ " + expr + "; })"]
    else if |stmt| > 0 then JoinTwo(stmt, expr, " "); [stmt, expr]
    else [expr]
  }

  function StmtText(sameline: bool, level: int, stmt: string, expr: string, k: nat): string
    requires sameline || level >= 0
  {
    Line(sameline, level, StmtValues(stmt, expr, k), SEMI)
  }

  /**
   * What PrintReturn returns: the explicit value, or, in a bare return of a
   * function with named results, those names; a function with several
   * results returns them wrapped in make_tuple(...).
   */
  function ReturnExpr(expr: string, tuple: bool, retValues: string): (r: string)
    ensures expr != "" && !tuple ==> r == expr
    ensures expr == "" && !tuple ==> r == Chop(retValues)
    ensures tuple ==> r == "make_tuple(" + ReturnExpr(expr, false, retValues) + ")"
  {
    var e := if |expr| == 0 && |retValues| > 0 then Chop(retValues) else expr;
    if tuple then "make_tuple(" + e + ")" else e
  }

  /** The C++ result type PrintFunc writes: void, the single type, or a tuple of several. */
  function ResultType(results: string): (r: string)
    ensures |r| > 0
    ensures |results| > 0 ==> HasPrefix(r, results) || HasPrefix(r, "tuple<")
    ensures results == "" ==> r == "void"
    ensures results != "" && !IsMultiValue(results) ==> r == results
    ensures IsMultiValue(results) ==> r == "tuple<" + results + ">"
  {
    if |results| == 0 then "void"
    else if IsMultiValue(results) then "tuple<" + results + ">"
    else results
  }

  /**
   * The function header PrintFunc writes. A parameterless `main` without
   * results becomes the C entry point; a method gets its receiver type as
   * class qualifier and its receiver name as a comment.
   */
  function FuncHeader(receiver: string, name: string, params: string, results: string): (r: string)
    requires |receiver| > 0 ==> ' ' in receiver
    ensures |receiver| == 0 && |params| == 0 && |results| == 0 && name == "main" ==>
      r == "int" + " " + "main" + "(" + "int argc, char **argv" + ") "
    ensures !(|receiver| == 0 && |params| == 0 && |results| == 0 && name == "main") ==>
      HasPrefix(r, ResultType(results) + " ") && HasSuffix(r, name + "(" + params + ") ")
    ensures |receiver| > 0 ==> HasSuffix(r, "::" + name + "(" + params + ") ")
  {
    if |receiver| == 0 && |params| == 0 && |results| == 0 && name == "main" then
      Signature("int", "", "main", "int argc, char **argv")
    else
      Signature(ResultType(results), if |receiver| > 0 then ReceiverPrefix(receiver) else "", name, params)
  }

  /** The text `results receiver name(params) ` that PrintFunc formats. */
  function Signature(results: string, receiver: string, name: string, params: string): (r: string)
    ensures HasPrefix(r, results + " ") && HasSuffix(r, name + "(" + params + ") ")
    ensures HasSuffix(receiver, "::") ==> HasSuffix(r, "::" + name + "(" + params + ") ")
    ensures receiver == "" ==> r == results + " " + name + "(" + params + ") "
  {
    var head := results + " ";
    var tail := name + "(" + params + ") ";
    ThreePieces(head, receiver, tail);
    assert "::" + tail == "::" + name + "(" + params + ") ";
    assert head + tail == results + " " + name + "(" + params + ") ";
    head + receiver + tail
  }

  /** The qualification PrintFunc gives a method: "T* r" becomes the comment "/* r */" and the class "T::". */
  function ReceiverPrefix(receiver: string): (r: string)
    requires ' ' in receiver
    ensures HasPrefix(r, "/* " + CutSpace(receiver).1 + " */ ") && HasSuffix(r, "::")
  {
    var parts := CutSpace(receiver);
    var r := "/* " + parts.1 + " */ " + TrimRight(parts.0, "*") + "::";
    assert r == ("/* " + parts.1 + " */ ") + (TrimRight(parts.0, "*") + "::");
    r
  }

  /**
   * The loop header PrintFor writes after the indentation: the trailing
   * ";\n" of the init and post statements dropped, an empty condition made
   * "true", and a while loop when there is neither init nor post statement.
   */
  function ForHeader(init: string, cond: string, post: string): (r: string)
    ensures TrimRight(init, SEMI) == "" && TrimRight(post, SEMI) == "" ==> HasPrefix(r, "while (")
    ensures TrimRight(init, SEMI) != "" || TrimRight(post, SEMI) != "" ==> HasPrefix(r, "for (")
    ensures HasSuffix(r, ") ")
    ensures TrimRight(init, SEMI) == "" && TrimRight(post, SEMI) == "" ==>
      r == "while (" + " " + (if cond == "" then "true" else cond) + ") "
    ensures TrimRight(init, SEMI) != "" || TrimRight(post, SEMI) != "" ==>
      r == "for (" + TrimRight(init, SEMI) + ("; " + (if cond == "" then "true" else cond) + ";")
        + (if TrimRight(post, SEMI) == "" then "" else " " + TrimRight(post, SEMI)) + ") "
  {
    var i, p := TrimRight(init, SEMI), TrimRight(post, SEMI);
    var c := if |cond| == 0 then "true" else cond;
    var close := Join([") "], " ");
    var b := if |i| > 0 then Join([i], " ") else "";
    var d := if |p| > 0 then Join([" " + p], " ") else "";
    var m := Join(["; " + c + ";"], " ");
    var body := if |i| == 0 && |p| == 0 then Join(["while (", c], " ") + NONE else Join(["for ("], " ") + NONE + b + m + d;
    SuffixAfter(body, close);
    if |i| == 0 && |p| == 0 then
      JoinTwo("while (", c, " ");
      PrefixSelf("while (");
      PrefixExtend("while (", "while (", " ");
      PrefixExtend("while (" + " ", "while (", c);
      PrefixExtend("while (" + " " + c, "while (", NONE);
      PrefixExtend("while (" + " " + c + NONE, "while (", close);
      Join(["while (", c], " ") + NONE + close
    else
      PrefixSelf("for (");
      PrefixExtend("for (", "for (", NONE);
      PrefixExtend("for (" + NONE, "for (", b);
      PrefixExtend("for (" + NONE + b, "for (", m);
      PrefixExtend("for (" + NONE + b + m, "for (", d);
      PrefixExtend("for (" + NONE + b + m + d, "for (", close);
      assert b == i && NONE == "";
      Join(["for ("], " ") + NONE + b + m + d + close
  }

  /**
   * The range loop header PrintRange writes after the indentation: the
   * key, then ", value" when there is a value, bound over the expression.
   * A blank key gives way to the value, which then takes the key's place.
   */
  function RangeHeader(key: string, value: string, expr: string): (r: string)
    ensures key == "_" ==> r == "for (auto " + value + ": " + expr + " ) "
    ensures key != "_" ==> r == "for (auto " + key + (if value == "" then "" else ", " + value) + ": " + expr + " ) "
    ensures HasPrefix(r, "for (auto ") && HasSuffix(r, ": " + expr + " ) ")
  {
    var k, v := if key == "_" then value else key, if key == "_" then "" else value;
    RangeJoin(k, v, expr);
    Join(["for (auto", k], " ") + (if v == "" then "" else Join([",", v], " ")) + Join([":", expr, ") "], " ")
  }

  /** The pieces PrintRange prints for key `k` and value `v`, read as one text. */
  lemma RangeJoin(k: string, v: string, expr: string)
    ensures var r := Join(["for (auto", k], " ") + (if v == "" then "" else Join([",", v], " ")) + Join([":", expr, ") "], " ");
      r == "for (auto " + k + (if v == "" then "" else ", " + v) + ": " + expr + " ) "
      && HasPrefix(r, "for (auto ") && HasSuffix(r, ": " + expr + " ) ")
  {
    JoinTwo("for (auto", k, " ");
    JoinThree(":", expr, ") ", " ");
    assert "for (auto" + " " == "for (auto ";
    assert ":" + " " == ": " && " " + ") " == " ) ";
    if v != "" {
      JoinTwo(",", v, " ");
      assert "," + " " == ", ";
    }
    FivePieces("for (auto ", k + (if v == "" then "" else ", " + v), ": ", expr, " ) ");
  }

  function SwitchText(sameline: bool, level: int, init: string, expr: string): string
    requires sameline || level >= 0
    requires |init| > 0 ==> level >= 0
  {
    (if |init| > 0 then Line(sameline, level, [init], SEMI) else "")
      + Line(sameline && |init| == 0, level, ["switch (", expr, ")"], NONE)
  }

  function CaseText(sameline: bool, level: int, expr: string): string
    requires sameline || level >= 0
  {
    if |expr| > 0 then Line(sameline, level, ["case", expr], COLON) else Line(sameline, level, ["default:"], NL)
  }

  function IfText(sameline: bool, level: int, init: string, cond: string): string
    requires sameline || level >= 0
  {
    Line(sameline, level, [if |init| > 0 then init + " if " else "if "], NONE) + Join(["(", cond, ") "], " ")
  }

  /** What PrintAssignment hands to PrintLevel; `:=` declares the left side with a guessed type. */
  function AssignValues(lhs: string, op: string, rhs: string, ltuple: bool, rtuple: bool): (r: seq<string>)
    ensures op == ":=" && !ltuple && !rtuple ==> Join(r, " ") == (GuessType(rhs).0 + " " + lhs) + " " + "=" + " " + rhs
    ensures op != ":=" && !ltuple && !rtuple ==> Join(r, " ") == lhs + " " + op + " " + rhs
    ensures op != ":=" && ltuple && rtuple ==>
      Join(r, " ") == ("tie(" + lhs + ")") + " " + op + " " + ("make_tuple(" + rhs + ")")
    ensures |r| == 3 && Join(r, " ") == r[0] + " " + r[1] + " " + r[2]
    ensures r[1] == (if op == ":=" then "=" else op)
    ensures var decl := if op == ":=" then GuessType(rhs).0 + " " + lhs else lhs;
      r[0] == (if ltuple then "tie(" + decl + ")" else decl)
    ensures r[2] == (if rtuple then "make_tuple(" + rhs + ")" else rhs)
  {
    var l := if op == ":=" then GuessType(rhs).0 + " " + lhs else lhs;
    var o := if op == ":=" then "=" else op;
    var v := if op == ":=" then GuessType(rhs).1 else rhs;
    var l' := if ltuple then "tie(" + l + ")" else l;
    var v' := if rtuple then "make_tuple(" + v + ")" else v;
    JoinThree(l', o, v', " ");
    [l', o, v']
  }

  /**
   * FormatPair's rewriting of a name and its C type into declarator
   * order: an array suffix "[n]" moves from the type onto the name (it
   * stays when there is no name), and leading pointer stars move behind
   * the type. No character is lost or added.
   */
  function Declarator(name: string, value: string): (r: (string, string))
    ensures |r.0| + |r.1| == |name| + |value|
    ensures HasPrefix(r.0, name)
    ensures r.0 == "" <==> name == ""
  {
    var nv := if HasSuffix(value, "]") && LastIndexByte(value, '[') >= 0 then
        var i := LastIndexByte(value, '[');
        if |name| > 0 then (name + value[i..], value[..i]) else (name, value[..i] + value[i..])
      else (name, value);
    assert nv.0[..|name|] == name;
    if HasPrefix(nv.1, "*") then
      var i := LastIndexByte(nv.1, '*') + 1;
      (nv.0, nv.1[i..] + nv.1[..i])
    else nv
  }

  /** The entry FormatPair makes of a name and a type already in declarator order, before its indentation and terminator. */
  function PairText(name: string, value: string, t: FieldType): (r: string)
    ensures t == Method && name == "" ==> r == "// extends " + value
    ensures t == Method && name != "" ==> r == "virtual " + FillTemplate(value, name)
    ensures t == Result && name != "" ==> r == value + " /* " + name + " */"
    ensures t == Field && name == "" ==> r == IdentifierOf(value) + " " + value
    ensures t == Param && Contains(value, "%s") ==> r == FillTemplate(value, name)
    ensures t == Result && name != "" ==> HasPrefix(r, value) && HasSuffix(r, " /* " + name + " */")
    ensures (t != Method && !(t == Result && name != "") && !(t == Param && Contains(value, "%s"))
      && !(t == Field && name == "")) ==> r == value + (if name != "" && value != "" then " " else "") + name
  {
    if t == Method then
      if |name| == 0 then "// extends " + value else "virtual " + FillTemplate(value, name)
    else if t == Result && |name| > 0 then value + " /* " + name + " */"
    else if t == Param && Contains(value, "%s") then FillTemplate(value, name)
    else if t == Field && |name| == 0 then IdentifierOf(value) + " " + value
    else if |name| > 0 && |value| > 0 then value + " " + name
    else value + name
  }

  /** The context after FormatPair has recorded a named result in it. */
  function RecordResult(c: Context, name: string, value: string): Context
  {
    c.(retDefinitions := c.retDefinitions + value + " " + name + ";", retValues := c.retValues + name + ", ")
  }

  class CPrinter {
    var level: int
    var sameline: bool
    /** The text written to the printer's writer so far. */
    var out: string
    /** The context stack, innermost first; empty when p.ctx is nil. */
    var ctx: seq<Context>

    /** A zero CPrinter: level 0, no context, nothing written. */
    constructor ()
      ensures level == 0 && !sameline && out == "" && ctx == []
    {
      level := 0;
      sameline := false;
      out := "";
      ctx := [];
    }

    /** strings.Repeat panics on a negative count: the next indentation exists. */
    predicate CanIndent()
      reads this
    {
      sameline || level >= 0
    }

    /** The line is no longer the same line; level and contexts are kept. */
    twostate predicate Steady()
      reads this
    {
      !sameline && level == old(level) && ctx == old(ctx)
    }

    method Reset()
      modifies this
      ensures level == 0 && !sameline && ctx == [] && out == old(out)
    {
      level := 0;
      sameline := false;
      ctx := [];
    }

    method PushContext()
      modifies this
      ensures ctx == [Fresh] + old(ctx)
      ensures level == old(level) && sameline == old(sameline) && out == old(out)
    {
      ctx := [Fresh] + ctx;
    }

    /** PopContext dereferences p.ctx: there must be one. */
    method PopContext()
      requires |ctx| > 0
      modifies this
      ensures ctx == old(ctx)[1..]
      ensures level == old(level) && sameline == old(sameline) && out == old(out)
    {
      ctx := ctx[1..];
    }

    method UpdateLevel(delta: int)
      modifies this
      ensures level == old(level) + delta
      ensures sameline == old(sameline) && out == old(out) && ctx == old(ctx)
    {
      level := level + delta;
    }

    method SameLine()
      modifies this
      ensures sameline
      ensures level == old(level) && out == old(out) && ctx == old(ctx)
    {
      sameline := true;
    }

    method Indent() returns (r: string)
      requires CanIndent()
      modifies this
      ensures r == IndentText(old(sameline), old(level))
      ensures !sameline && level == old(level) && out == old(out) && ctx == old(ctx)
    {
      if sameline {
        sameline := false;
        return "";
      }
      return Repeat("  ", level);
    }

    method Print(values: seq<string>)
      modifies this
      ensures out == old(out) + Join(values, " ")
      ensures level == old(level) && sameline == old(sameline) && ctx == old(ctx)
    {
      out := out + Join(values, " ");
    }

    method PrintLevel(term: string, values: seq<string>)
      requires CanIndent()
      modifies this
      ensures out == old(out) + Line(old(sameline), old(level), values, term)
      ensures Steady()
    {
      var ind := Indent();
      out := out + (ind + Join(values, " ") + term);
    }

    /** PrintLevel one level further out, the level itself being kept. */
    method PrintLevelIn(term: string, values: seq<string>)
      requires sameline || level >= 1
      modifies this
      ensures out == old(out) + Line(old(sameline), old(level) - 1, values, term)
      ensures Steady()
    {
      level := level - 1;
      var ind := Indent();
      out := out + (ind + Join(values, " ") + term);
      level := level + 1;
    }

    /**
     * PrintBlockStart: the opening bracket, one level deeper, and in a
     * function body the declarations of its named results, printed once.
     */
    method PrintBlockStart(b: BlockType)
      requires CanIndent()
      requires b == Code ==> |ctx| > 0 && (|ctx[0].retDefinitions| > 0 ==> level + 1 >= 0)
      modifies this
      ensures level == old(level) + 1 && !sameline
      ensures b == Code ==> |ctx| > 0 && ctx[0].retDefinitions == ""
      ensures var defs := if b == Code then old(ctx)[0].retDefinitions else "";
        out == old(out) + BlockStartText(old(sameline), old(level), b, defs)
        && ctx == (if |defs| > 0 then [old(ctx)[0].(retDefinitions := "")] + old(ctx)[1..] else old(ctx))
    {
      ghost var o, sl, l := out, sameline, level;
      var open := if b == Const || b == Var then "(" else "{";
      PrintLevel(NL, [open]);
      UpdateLevel(UP);
      if b == Code && |ctx[0].retDefinitions| > 0 {
        ghost var defs := ctx[0].retDefinitions;
        PrintLevel(NL, [ctx[0].retDefinitions]);
        ctx := [ctx[0].(retDefinitions := "")] + ctx[1..];
        Grow(o, Line(sl, l, [open], NL), Line(false, l + 1, [defs], NL));
      }
    }

    /** PrintBlockEnd: one level back, then the closing bracket. */
    method PrintBlockEnd(b: BlockType)
      requires sameline || level >= 1
      modifies this
      ensures level == old(level) - 1 && !sameline && ctx == old(ctx)
      ensures out == old(out) + BlockEndText(old(sameline), old(level), b)
    {
      var close := if b == Const || b == Var then ")" else "}";
      UpdateLevel(DOWN);
      PrintLevel(NONE, [close]);
    }

    method PrintPackage(name: string)
      requires level >= 0
      modifies this
      ensures out == old(out) + PackageText(old(sameline), old(level), name)
      ensures Steady()
    {
      ghost var o, sl, l := out, sameline, level;
      PrintLevel(NL, ["//package", name]);
      PrintLevel(NL, ["#include <go.h>"]);
      Grow(o, Line(sl, l, ["//package", name], NL), Line(false, l, ["#include <go.h>"], NL));
    }

    /** PrintImport: the import as a comment, and the runtime header of the packages the runtime provides. */
    method PrintImport(name: string, path: string)
      requires CanIndent()
      requires ImportHeader(path).Some? ==> level >= 0
      modifies this
      ensures out == old(out) + ImportText(old(sameline), old(level), name, path)
      ensures Steady()
    {
      ghost var o, sl, l := out, sameline, level;
      PrintLevel(NL, ["//import", name, path]);
      ghost var a := Line(sl, l, ["//import", name, path], NL);
      if path == "\"fmt\"" {
        PrintLevel(NL, ["#include <fmt.h>"]);
        Grow(o, a, Line(false, l, ["#include <fmt.h>"], NL));
      } else if path == "\"sync\"" {
        PrintLevel(NL, ["#include <sync.h>"]);
        Grow(o, a, Line(false, l, ["#include <sync.h>"], NL));
      } else if path == "\"errors\"" {
        PrintLevel(NL, ["#include <errors.h>"]);
        Grow(o, a, Line(false, l, ["#include <errors.h>"], NL));
      } else if path == "\"time\"" {
        PrintLevel(NL, ["#include <go_time.h>"]);
        Grow(o, a, Line(false, l, ["#include <go_time.h>"], NL));
      }
    }

    /** PrintType: a typedef; a function type template gets the parenthesised name in its "%s". */
    method PrintType(name: string, typedef: string)
      requires CanIndent()
      modifies this
      ensures out == old(out) + TypeText(old(sameline), old(level), name, typedef)
      ensures Steady()
    {
      if Contains(typedef, "%") {
        PrintLevel(SEMI, ["typedef", FillTemplate(typedef, "(" + name + ")")]);
      } else {
        PrintLevel(SEMI, ["typedef", typedef, name]);
      }
    }

    /** FormatIdent: nil is nullptr, iota takes the next value of the context's counter, string is std::string. */
    method FormatIdent(id: string) returns (ret: string)
      requires id == IOTA ==> |ctx| > 0
      modifies this
      ensures id == NIL ==> ret == NULL
      ensures id == IOTA ==> ret == Itoa(old(ctx)[0].iota)
      ensures id == "string" ==> ret == "std::string"
      ensures id != NIL && id != IOTA && id != "string" ==> ret == id
      ensures ctx == if id == IOTA then [old(ctx)[0].(iota := old(ctx)[0].iota + 1)] + old(ctx)[1..] else old(ctx)
      ensures level == old(level) && sameline == old(sameline) && out == old(out)
    {
      if id == NIL {
        return NULL;
      } else if id == IOTA {
        ret := Itoa(ctx[0].iota);
        ctx := [ctx[0].(iota := ctx[0].iota + 1)] + ctx[1..];
      } else if id == "string" {
        ret := "std::string";
      } else {
        ret := id;
      }
    }

    /**
     * PrintValue: a var or const declaration. A const with no value takes
     * the next iota; a missing type is guessed from the value.
     */
    method PrintValue(vtype: string, typedef: string, names: string, values: string, ntuple: bool, vtuple: bool)
      requires CanIndent()
      requires vtype == "const" && values == "" ==> |ctx| > 0
      modifies this
      ensures var implicit := vtype == "const" && values == "";
        var vals := if implicit then Itoa(old(ctx)[0].iota) else values;
        out == old(out) + ValueText(old(sameline), old(level),
                                    ValueDeclOf(if vtype == "var" then "" else vtype, typedef, names, vals, ntuple, vtuple))
        && ctx == (if implicit then [old(ctx)[0].(iota := old(ctx)[0].iota + 1)] + old(ctx)[1..] else old(ctx))
      ensures !sameline && level == old(level)
    {
      ghost var o, sl, l, c := out, sameline, level, ctx;
      ghost var implicit := vtype == "const" && values == "";
      var vt, vals := vtype, values;
      if vt == "var" {
        vt := "";
      } else if vt == "const" && |vals| == 0 {
        vals := FormatIdent(IOTA);
      }
      assert vals == if implicit then Itoa(c[0].iota) else values;
      assert vt == if vtype == "var" then "" else vtype;
      assert ctx == if implicit then [c[0].(iota := c[0].iota + 1)] + c[1..] else c;
      var d := ValueDeclOf(vt, typedef, names, vals, ntuple, vtuple);
      PrintLevel(NONE, [d.vtype, d.typedef, d.names]);
      ghost var a := Line(sl, l, [d.vtype, d.typedef, d.names], NONE);
      ghost var b := if |d.values| > 0 then Join([" =", d.values], " ") else "";
      if |d.values| > 0 {
        Print([" =", d.values]);
      }
      Print([";\n"]);
      Grow(o, a, b);
      Grow(o, a + b, Join([";\n"], " "));
      assert out == o + ValueText(sl, l, d);
    }

    /**
     * PrintStmt: a goroutine, a defer callback with a name unique in its
     * function (the context counts them), or a plain statement.
     */
    method PrintStmt(stmt: string, expr: string)
      requires CanIndent()
      requires stmt == "defer" ==> |ctx| > 0
      modifies this
      ensures out == old(out) + StmtText(old(sameline), old(level), stmt, expr, if stmt == "defer" then old(ctx)[0].deferred else 0)
      ensures ctx == if stmt == "defer" then [old(ctx)[0].(deferred := old(ctx)[0].deferred + 1)] + old(ctx)[1..] else old(ctx)
      ensures !sameline && level == old(level)
    {
      if stmt == "go" {
        PrintLevel(SEMI, ["Goroutine([](){ " + expr + "; })"]);
      } else if stmt == "defer" {
        PrintLevel(SEMI, ["Deferred defer" + Itoa(ctx[0].deferred) + "([](){ " + expr + "; })"]);
        ctx := [ctx[0].(deferred := ctx[0].deferred + 1)] + ctx[1..];
      } else if |stmt| > 0 {
        PrintLevel(SEMI, [stmt, expr]);
      } else {
        PrintLevel(SEMI, [expr]);
      }
    }

    /** PrintReturn: an empty return in a function with named results returns them. */
    method PrintReturn(expr: string, tuple: bool)
      requires CanIndent()
      requires expr == "" ==> |ctx| > 0
      modifies this
      ensures out == old(out) + StmtText(old(sameline), old(level), "return",
                                         ReturnExpr(expr, tuple, if expr == "" then old(ctx)[0].retValues else ""), 0)
      ensures Steady()
    {
      var e := expr;
      if |e| == 0 && |ctx[0].retValues| > 0 {
        e := Chop(ctx[0].retValues);
      }
      if tuple {
        e := "make_tuple(" + e + ")";
      }
      PrintStmt("return", e);
    }

    /** PrintFunc: the function header; a method's receiver becomes the context's receiver. */
    method PrintFunc(receiver: string, name: string, params: string, results: string)
      requires |receiver| > 0 ==> ' ' in receiver && |ctx| > 0
      modifies this
      ensures out == old(out) + FuncHeader(receiver, name, params, results)
      ensures ctx == if |receiver| > 0 then [old(ctx)[0].(receiver := CutSpace(receiver).1)] + old(ctx)[1..] else old(ctx)
      ensures level == old(level) && sameline == old(sameline)
    {
      var res, ps, recv := results, params, receiver;
      if |recv| == 0 && |ps| == 0 && |res| == 0 && name == "main" {
        res := "int";
        ps := "int argc, char **argv";
      } else {
        res := ResultType(res);
        if |recv| > 0 {
          var parts := CutSpace(recv);
          recv := ReceiverPrefix(recv);
          ctx := [ctx[0].(receiver := parts.1)] + ctx[1..];
        }
      }
      out := out + Signature(res, recv, name, ps);
    }

    method PrintFor(init: string, cond: string, post: string)
      requires CanIndent()
      modifies this
      ensures out == old(out) + IndentText(old(sameline), old(level)) + ForHeader(init, cond, post)
      ensures Steady()
    {
      ghost var o, sl, l := out, sameline, level;
      var i := TrimRight(init, SEMI);
      var p := TrimRight(post, SEMI);
      var onlycond := |i| == 0 && |p| == 0;
      var c := if |cond| == 0 then "true" else cond;
      if onlycond {
        PrintLevel(NONE, ["while (", c]);
        Print([") "]);
        Regroup3(o, IndentText(sl, l), Join(["while (", c], " "), NONE, Join([") "], " "));
      } else {
        PrintLevel(NONE, ["for ("]);
        ghost var o1 := out;
        if |i| > 0 {
          Print([i]);
        }
        ghost var o2 := out;
        Print(["; " + c + ";"]);
        ghost var o3 := out;
        if |p| > 0 {
          Print([" " + p]);
        }
        ghost var o4 := out;
        Print([") "]);
        ghost var b := if |i| > 0 then Join([i], " ") else "";
        ghost var d := if |p| > 0 then Join([" " + p], " ") else "";
        assert o2 == o1 + b;
        assert o4 == o3 + d;
        Regroup6(o, IndentText(sl, l), Join(["for ("], " "), NONE, b, Join(["; " + c + ";"], " "), d, Join([") "], " "));
      }
    }

    method PrintRange(key: string, value: string, expr: string)
      requires CanIndent()
      modifies this
      ensures out == old(out) + IndentText(old(sameline), old(level)) + RangeHeader(key, value, expr)
      ensures Steady()
    {
      ghost var o, sl, l := out, sameline, level;
      var k, v := key, value;
      if k == "_" {
        k, v := v, "";
      }
      PrintLevel(NONE, ["for (auto", k]);
      ghost var ind, a, c := IndentText(sl, l), Join(["for (auto", k], " "), Join([":", expr, ") "], " ");
      assert a + NONE == a;
      ghost var o1 := out;
      assert o1 == o + (ind + a + NONE);
      if |v| > 0 {
        Print([",", v]);
        ghost var b := Join([",", v], " ");
        Print([":", expr, ") "]);
        assert out == o1 + b + c;
        assert RangeHeader(key, value, expr) == a + NONE + b + c;
        Regroup4(o, ind, a, NONE, b, c);
      } else {
        Print([":", expr, ") "]);
        assert out == o1 + c;
        assert RangeHeader(key, value, expr) == a + NONE + c;
        Regroup3(o, ind, a, NONE, c);
      }
    }

    method PrintSwitch(init: string, expr: string)
      requires CanIndent()
      requires |init| > 0 ==> level >= 0
      modifies this
      ensures out == old(out) + SwitchText(old(sameline), old(level), init, expr)
      ensures Steady()
    {
      ghost var o, sl, l := out, sameline, level;
      if |init| > 0 {
        PrintLevel(SEMI, [init]);
      }
      PrintLevel(NONE, ["switch (", expr, ")"]);
      Grow(o, if |init| > 0 then Line(sl, l, [init], SEMI) else "", Line(sl && |init| == 0, l, ["switch (", expr, ")"], NONE));
    }

    method PrintCase(expr: string)
      requires CanIndent()
      modifies this
      ensures out == old(out) + CaseText(old(sameline), old(level), expr)
      ensures Steady()
    {
      if |expr| > 0 {
        PrintLevel(COLON, ["case", expr]);
      } else {
        PrintLevel(NL, ["default:"]);
      }
    }

    method PrintEndCase()
      requires CanIndent()
      modifies this
      ensures out == old(out) + Line(old(sameline), old(level), ["break"], SEMI)
      ensures Steady()
    {
      PrintLevel(SEMI, ["break"]);
    }

    method PrintIf(init: string, cond: string)
      requires CanIndent()
      modifies this
      ensures out == old(out) + IfText(old(sameline), old(level), init, cond)
      ensures Steady()
    {
      ghost var o, sl, l := out, sameline, level;
      var head := if |init| > 0 then init + " if " else "if ";
      if |init| > 0 {
        PrintLevel(NONE, [init + " if "]);
      } else {
        PrintLevel(NONE, ["if "]);
      }
      Print(["(", cond, ") "]);
      Grow(o, Line(sl, l, [head], NONE), Join(["(", cond, ") "], " "));
    }

    /** PrintElse continues the current line: the indentation state is left alone. */
    method PrintElse()
      modifies this
      ensures out == old(out) + " else "
      ensures level == old(level) && sameline == old(sameline) && ctx == old(ctx)
    {
      Print([" else "]);
    }

    method PrintEmpty()
      requires CanIndent()
      modifies this
      ensures out == old(out) + Line(old(sameline), old(level), [""], SEMI)
      ensures Steady()
    {
      PrintLevel(SEMI, [""]);
    }

    method PrintAssignment(lhs: string, op: string, rhs: string, ltuple: bool, rtuple: bool)
      requires CanIndent()
      modifies this
      ensures out == old(out) + Line(old(sameline), old(level), AssignValues(lhs, op, rhs, ltuple, rtuple), SEMI)
      ensures Steady()
    {
      var l, o, r := lhs, op, rhs;
      if o == ":=" {
        var rtype, rvalue := GuessType(r).0, GuessType(r).1;
        l := rtype + " " + l;
        r := rvalue;
        o := "=";
      }
      if ltuple {
        l := "tie(" + l + ")";
      }
      if rtuple {
        r := "make_tuple(" + r + ")";
      }
      PrintLevel(SEMI, [l, o, r]);
    }

    method PrintSend(ch: string, value: string)
      requires CanIndent()
      modifies this
      ensures out == old(out) + Line(old(sameline), old(level), [ch + ".Send(" + value + ")"], SEMI)
      ensures Steady()
    {
      PrintLevel(SEMI, [ch + ".Send(" + value + ")"]);
    }

    /** FormatSelector: a field or method of an object, through `this->` for the receiver; a package member with `::`. */
    function FormatSelector(pname: string, sel: string, isObject: bool): (r: string)
      reads this
      ensures isObject && |ctx| > 0 && ctx[0].receiver == pname ==> r == "this->" + sel
      ensures isObject && !(|ctx| > 0 && ctx[0].receiver == pname) ==> r == pname + "." + sel
      ensures !isObject ==> r == pname + "::" + sel
    {
      if isObject then Selector(ctx, pname) + sel else pname + "::" + sel
    }

    /**
     * FormatPair: one declaration of a field, method, parameter or result.
     * Methods and fields are whole indented lines; the others are list
     * entries ending in ", ". A named result is also recorded in the
     * current context, for the declarations and bare returns of the body.
     */
    method FormatPair(v: Pair, t: FieldType) returns (ret: string)
      requires t == Method || t == Field ==> CanIndent()
      modifies this
      ensures var d := Declarator(v.name, v.value);
        (t == Method || t == Field ==> ret == IndentText(old(sameline), old(level)) + PairText(d.0, d.1, t) + SEMI && !sameline)
        && (t != Method && t != Field ==> ret == PairText(d.0, d.1, t) + COMMA && sameline == old(sameline))
        && ctx == (if t == Result && d.0 != "" && |old(ctx)| > 0 then [RecordResult(old(ctx)[0], d.0, d.1)] + old(ctx)[1..] else old(ctx))
      ensures level == old(level) && out == old(out)
    {
      var d := Declarator(v.name, v.value);
      var name, value := d.0, d.1;
      if t == Method {
        if |name| == 0 {
          ret := "// extends " + value;
        } else {
          ret := "virtual " + FillTemplate(value, name);
        }
      } else if t == Result && |name| > 0 {
        ret := value + " /* " + name + " */";
        if |ctx| > 0 {
          ctx := [RecordResult(ctx[0], name, value)] + ctx[1..];
        }
      } else if t == Param && Contains(value, "%s") {
        ret := FillTemplate(value, name);
      } else if t == Field && |name| == 0 {
        var id := GetIdentifier(value);
        ret := id + " " + value;
      } else if |name| > 0 && |value| > 0 {
        ret := value + " " + name;
      } else {
        ret := value + name;
      }
      assert ret == PairText(name, value, t);
      if t == Method || t == Field {
        var ind := Indent();
        ret := ind + ret + SEMI;
      } else {
        ret := ret + COMMA;
      }
    }
  }
}
