/**
 * The pure half of the C++ printer of printer/cprinter.go: the Format*
 * string builders that do not touch the printer's state, and the helpers
 * GuessType, IsMultiValue, FormatMake, findMatch and getIdentifier.
 *
 * The printer package's own constants (COMMA, SEMI, NL, COLON, NONE, UP,
 * DOWN) are declared in printer/printer.go, which is not part of this
 * model; the values below are the ones the printer's output relies on.
 */
module CFormat {
  import opened GoStrings

  const NIL: string := "nil"
  const NULL: string := "nullptr"
  const IOTA: string := "iota"

  const NONE: string := ""
  const NL: string := "\n"
  const COMMA: string := ", "
  const SEMI: string := ";\n"
  const COLON: string := ":\n"

  /** The channel directions the printer is told about (printer.CHAN_BIDI, CHAN_SEND, CHAN_RECV). */
  datatype ChanDir = Bidi | SendOnly | RecvOnly

  /**
   * fmt.Sprintf(format, arg) for the formats the printer builds itself:
   * the first "%s" is replaced by `arg`. A format without "%s" is returned
   * unchanged (Go would append an EXTRA note, which is not modelled).
   */
  function FillTemplate(format: string, arg: string): (r: string)
    ensures Index(format, "%s") < 0 ==> r == format
    ensures Index(format, "%s") >= 0 ==> |r| == |format| - 2 + |arg|
  {
    var i := Index(format, "%s");
    if i < 0 then format else format[..i] + arg + format[i + 2..]
  }

  /** The first "%s" in `prefix + "%s" + suffix` is the one written there, when `prefix` has no "%". */
  lemma FillTemplateAt(prefix: string, suffix: string, arg: string)
    requires '%' !in prefix
    ensures FillTemplate(prefix + "%s" + suffix, arg) == prefix + arg + suffix
  {
    var f := prefix + "%s" + suffix;
    assert OccursAt(f, "%s", |prefix|);
    forall j | 0 <= j < |prefix|
      ensures !OccursAt(f, "%s", j)
    {
      assert f[j] == prefix[j];
    }
    var i := Index(f, "%s");
    assert i == |prefix|;
    assert f[..i] == prefix;
    assert f[i + 2..] == suffix;
  }

  /** The C escape of one character of a raw string literal's content. */
  function EscapeChar(c: char): string
  {
    if c == '\\' then "\\\\" else if c == '"' then "\\\"" else if c == '\n' then "\\n" else [c]
  }

  /** The C escape of a raw string literal's content. */
  function Escape(s: string): string
  {
    if |s| == 0 then "" else EscapeChar(s[0]) + Escape(s[1..])
  }

  /**
   * FormatLiteral, corrected: a Go raw string `...` becomes a C string
   * literal with the same content; every other literal is left alone.
   */
  function FormatLiteral(lit: string): (r: string)
    requires |lit| > 0 && lit[0] == '`' ==> |lit| >= 2
    ensures |lit| == 0 || lit[0] != '`' ==> r == lit
    ensures |lit| > 0 && lit[0] == '`' ==> CUnquote(r) == Some(lit[1..|lit| - 1])
  {
    if |lit| == 0 then lit
    else if lit[0] == '`' then
      var r := "\"" + Escape(lit[1..|lit| - 1]) + "\"";
      UnquoteQuote(lit[1..|lit| - 1]);
      r
    else lit
  }

  /** FormatLiteral as printer/cprinter.go writes it: `"` becomes the three characters \\" and a backslash stays as it is. */
  function FormatLiteralAsWritten(lit: string): (r: string)
    requires |lit| > 0 && lit[0] == '`' ==> |lit| >= 2
    ensures |lit| == 0 || lit[0] != '`' ==> r == lit
    ensures |lit| > 0 && lit[0] == '`' ==> |r| >= 2 && r[0] == '"' && r[|r| - 1] == '"'
  {
    if |lit| == 0 then lit
    else if lit[0] == '`' then
      var body := ReplaceChar(lit[1..|lit| - 1], '"', "\\\\\"");
      "\"" + ReplaceChar(body, '\n', "\\n") + "\""
    else lit
  }

  /**
   * The content of a C string literal body (between its quotes), reading
   * the escapes \\, \" and \n; None when the body has an unescaped quote,
   * a lone trailing backslash or another escape.
   */
  function CUnescape(s: string): (r: Option<string>)
  {
    if |s| == 0 then Some("")
    else if s[0] == '"' then None
    else if s[0] == '\\' then
      if |s| < 2 then None
      else
        var c := if s[1] == '\\' then '\\' else if s[1] == '"' then '"' else if s[1] == 'n' then '\n' else '\0';
        if c == '\0' then None
        else
          var rest := CUnescape(s[2..]);
          if rest.None? then None else Some([c] + rest.value)
    else
      var rest := CUnescape(s[1..]);
      if rest.None? then None else Some([s[0]] + rest.value)
  }

  /** The content of a C string literal, or None when it is not one. */
  function CUnquote(lit: string): Option<string>
  {
    if |lit| >= 2 && lit[0] == '"' && lit[|lit| - 1] == '"' then CUnescape(lit[1..|lit| - 1]) else None
  }

  lemma {:induction false} UnescapeEscape(s: string)
    ensures CUnescape(Escape(s)) == Some(s)
  {
    if |s| > 0 {
      UnescapeEscape(s[1..]);
      var e := EscapeChar(s[0]);
      assert Escape(s) == e + Escape(s[1..]);
      if |e| == 2 {
        assert (e + Escape(s[1..]))[2..] == Escape(s[1..]);
      } else {
        assert (e + Escape(s[1..]))[1..] == Escape(s[1..]);
      }
      assert [s[0]] + s[1..] == s;
    }
  }

  lemma UnquoteQuote(s: string)
    ensures CUnquote("\"" + Escape(s) + "\"") == Some(s)
  {
    var lit := "\"" + Escape(s) + "\"";
    assert lit[1..|lit| - 1] == Escape(s);
    UnescapeEscape(s);
  }

  /** FormatCompositeLit: type{elements}. */
  function FormatCompositeLit(typedef: string, elt: string): string
  {
    typedef + "{" + elt + "}"
  }

  function FormatEllipsis(expr: string): string
  {
    "..." + expr
  }

  function FormatStar(expr: string): string
  {
    "*" + expr
  }

  function FormatParen(expr: string): string
  {
    "(" + expr + ")"
  }

  /** FormatUnary: a receive `<-ch` becomes the call ch.Receive(); other operators are kept. */
  function FormatUnary(op: string, operand: string): (r: string)
    ensures op == "<-" ==> r == operand + ".Receive()"
    ensures op != "<-" ==> r == op + operand
  {
    if op == "<-" then operand + ".Receive()" else op + operand
  }

  /** FormatBinary: AND NOT `&^`, which C++ lacks, becomes `& ~`; other operators are kept. */
  function FormatBinary(lhs: string, op: string, rhs: string): (r: string)
    ensures op != "&^" ==> r == lhs + " " + op + " " + rhs
  {
    if op == "&^" then lhs + " & " + "~" + rhs else lhs + " " + op + " " + rhs
  }

  /** FormatArray: the C declarator order, element type first. */
  function FormatArray(len: string, elt: string): string
  {
    elt + "[" + len + "]"
  }

  function FormatArrayIndex(arr: string, index: string): string
  {
    arr + "[" + index + "]"
  }

  function FormatSlice(slice: string, low: string, high: string, max: string): string
  {
    if max == "" then slice + "[" + low + ":" + high + "]"
    else slice + "[" + low + ":" + high + ":" + max + "]"
  }

  function FormatMap(key: string, elt: string): string
  {
    "map<" + key + ", " + elt + ">"
  }

  function FormatKeyValue(key: string, value: string): string
  {
    "{" + key + ", " + value + "}"
  }

  /** FormatStruct: the field declarations in a struct body, or an empty struct. */
  function FormatStruct(fields: string): (r: string)
    ensures |fields| == 0 <==> r == "struct{}"
    ensures |fields| > 0 ==> r == "struct {\n" + fields + "}"
  {
    if |fields| > 0 then "struct {\n" + fields + "}" else "struct{}"
  }

  /** FormatInterface: an interface becomes a struct of its method declarations. */
  function FormatInterface(methods: string): (r: string)
    ensures |methods| == 0 <==> r == "struct{}"
    ensures |methods| > 0 ==> r == "struct {\n" + methods + "}"
  {
    if |methods| > 0 then "struct {\n" + methods + "}" else "struct{}"
  }

  function ChanTypeName(chdir: ChanDir): string
  {
    match chdir
    case Bidi => "Chan"
    case SendOnly => "SendChan"
    case RecvOnly => "ReceiveChan"
  }

  /** FormatChan: one template class per direction. */
  function FormatChan(chdir: ChanDir, mtype: string): string
  {
    ChanTypeName(chdir) + "<" + mtype + ">"
  }

  /**
   * FormatCall: a call, or a lambda for a function literal; a function of
   * package time is renamed go_time:: so that it cannot clash with C's time.
   */
  function FormatCall(fun: string, args: string, isFuncLit: bool): (r: string)
    ensures !HasPrefix(r, "time::")
    ensures HasPrefix(fun, "time::") && !isFuncLit ==> HasPrefix(r, "go_time::")
    ensures !HasPrefix(fun, "time::") && !isFuncLit ==> HasPrefix(r, fun + "(")
    ensures !isFuncLit ==> HasSuffix(r, "(" + args + ")")
    ensures isFuncLit ==> HasPrefix(r, "[](" + args + ")->")
    ensures isFuncLit && !HasPrefix(fun, "time::") ==> HasSuffix(r, fun)
  {
    var f := if HasPrefix(fun, "time::") then "go_" + fun else fun;
    assert ("[](" + args + ")->" + f)[0] == '[';
    var call := f + "(" + args + ")";
    assert HasPrefix(fun, "time::") ==> call[0] == 'g';
    assert HasPrefix(fun, "time::") ==> HasPrefix(call, "go_time::") by {
      if HasPrefix(fun, "time::") {
        PrefixPrepend("go_", fun, "time::");
        PrefixConcat(f, "(" + args + ")", "go_time::");
      }
    }
    assert !HasPrefix(fun, "time::") ==> !HasPrefix(call, "time::") by {
      if !HasPrefix(fun, "time::") && |call| >= 6 {
        if |f| < 6 {
          assert call[..6][|f|] == '(';
        } else {
          assert call[..6] == f[..6];
        }
      }
    }
    if isFuncLit then "[](" + args + ")->" + f else call
  }

  /** IsMultiValue: a result list with a comma names several results. */
  function IsMultiValue(expr: string): (r: bool)
    ensures r <==> ',' in expr
  {
    ContainsChar(expr, ',');
    Contains(expr, ",")
  }

  /**
   * FormatFuncType: a C function type template "R %s(params)"; the
   * function's name is filled in later. No result is void, several are a
   * tuple.
   */
  function FormatFuncType(params: string, results: string, withFunc: bool): string
  {
    var r := if |results| == 0 then "void" else if IsMultiValue(results) then "tuple<" + results + ">" else results;
    r + " " + "%s" + "(" + params + ")"
  }

  /** FormatFuncLit: a function type template with its name left empty, then the body. */
  function FormatFuncLit(ftype: string, body: string): string
  {
    FillTemplate(FillTemplate(ftype + "%s", ""), body)
  }

  function FormatTypeAssert(orig: string, assert_: string): string
  {
    orig + ".(" + assert_ + ")"
  }

  /** The closing character findMatch pairs with an opening one; any other opener has none (the NUL byte). */
  function Closing(ch: char): char
  {
    if ch == '<' then '>' else if ch == '[' then ']' else if ch == '{' then '}' else if ch == '(' then ')' else '\0'
  }

  /** Openers minus closers in s[i..j]. */
  function Depth(s: string, ch: char, i: nat, j: nat): int
    requires i <= j <= |s|
    decreases j - i
  {
    if i == j then 0
    else Depth(s, ch, i, j - 1) + (if s[j - 1] == ch then 1 else if s[j - 1] == Closing(ch) then -1 else 0)
  }

  /** The scan of findMatch from position `p` with `cnt` openers still open. */
  function MatchScan(s: string, ch: char, p: nat, cnt: int): (r: (int, bool))
    requires p <= |s|
    decreases |s| - p
  {
    if p == |s| then (0, false)
    else if s[p] == ch then MatchScan(s, ch, p + 1, cnt + 1)
    else if s[p] == Closing(ch) && cnt - 1 == 0 then (p, true)
    else if s[p] == Closing(ch) then MatchScan(s, ch, p + 1, cnt - 1)
    else MatchScan(s, ch, p + 1, cnt)
  }

  /**
   * findMatch: the position of the character that closes the first `ch` of
   * `s`, counting nested pairs; false when `ch` does not occur or is never
   * closed.
   */
  function MatchOf(s: string, ch: char): (int, bool)
  {
    var open := IndexByte(s, ch);
    if open < 0 then (0, false) else MatchScan(s, ch, open, 0)
  }

  /** What the scan finds is the first point after `open` where the pairs balance. */
  lemma {:induction false} MatchScanBalances(s: string, ch: char, open: nat, p: nat, cnt: int)
    requires ch != Closing(ch)
    requires open < |s| && s[open] == ch
    requires open <= p <= |s| && cnt == Depth(s, ch, open, p)
    requires forall q :: open < q <= p ==> Depth(s, ch, open, q) > 0
    ensures var r := MatchScan(s, ch, p, cnt);
      (r.1 ==> p <= r.0 < |s| && s[r.0] == Closing(ch) && Depth(s, ch, open, r.0 + 1) == 0
               && forall q :: open < q <= r.0 ==> Depth(s, ch, open, q) > 0)
      && (!r.1 ==> r.0 == 0 && forall q :: p < q <= |s| ==> Depth(s, ch, open, q) != 0)
    decreases |s| - p
  {
    if p < |s| {
      if s[p] == Closing(ch) && cnt - 1 == 0 {
      } else {
        assert p == open ==> cnt == 0 && s[p] == ch;
        assert p > open ==> cnt > 0;
        assert Depth(s, ch, open, p + 1) > 0;
        MatchScanBalances(s, ch, open, p + 1, Depth(s, ch, open, p + 1));
      }
    }
  }

  /** findMatch's result, stated outright. */
  lemma MatchOfSpec(s: string, ch: char)
    requires ch != Closing(ch)
    ensures var r := MatchOf(s, ch);
      var open := IndexByte(s, ch);
      (ch !in s ==> r == (0, false))
      && (r.1 ==> 0 <= open < r.0 < |s| && s[r.0] == Closing(ch) && Depth(s, ch, open, r.0 + 1) == 0
                  && forall q :: open < q <= r.0 ==> Depth(s, ch, open, q) > 0)
      && (!r.1 ==> r.0 == 0 && (ch in s ==> forall q :: open < q <= |s| ==> Depth(s, ch, open, q) != 0))
  {
    var open := IndexByte(s, ch);
    var r := MatchOf(s, ch);
    if open >= 0 {
      MatchFrom(s, ch, open, r);
    }
  }

  /** The scan from the first `ch`, with no opener counted yet. */
  lemma MatchFrom(s: string, ch: char, open: nat, r: (int, bool))
    requires ch != Closing(ch)
    requires open < |s| && s[open] == ch
    requires r == MatchScan(s, ch, open, 0)
    ensures r.1 ==> open < r.0 < |s| && s[r.0] == Closing(ch) && Depth(s, ch, open, r.0 + 1) == 0
    ensures r.1 ==> forall q :: open < q <= r.0 ==> Depth(s, ch, open, q) > 0
    ensures !r.1 ==> r.0 == 0 && forall q :: open < q <= |s| ==> Depth(s, ch, open, q) != 0
  {
    assert Depth(s, ch, open, open) == 0;
    MatchScanBalances(s, ch, open, open, 0);
  }

  /** findMatch, with its loop and counter. */
  method FindMatch(s: string, ch: char) returns (p: int, ok: bool)
    ensures (p, ok) == MatchOf(s, ch)
    ensures ok ==> 0 <= p < |s| && s[p] == Closing(ch)
    ensures ch !in s ==> !ok
  {
    var closing := Closing(ch);
    var cnt := 0;
    var open := IndexByte(s, ch);
    if open < 0 {
      return 0, false;
    }
    var q := open;
    while q < |s|
      invariant open <= q <= |s|
      invariant MatchScan(s, ch, q, cnt) == MatchOf(s, ch)
    {
      if s[q] == ch {
        cnt := cnt + 1;
      } else if s[q] == closing {
        cnt := cnt - 1;
        if cnt == 0 {
          return q, true;
        }
      }
      q := q + 1;
    }
    return 0, false;
  }

  /** getIdentifier: the text before the first '<' or '[', or all of it. */
  function IdentifierOf(s: string): (r: string)
    ensures HasPrefix(s, r)
    ensures '<' !in r && '[' !in r
    ensures r == s || s[|r|] == '<' || s[|r|] == '['
  {
    IndexAnyFirst(s, "<[");
    var i := IndexAny(s, "<[");
    if i < 0 then s else s[..i]
  }

  /** getIdentifier, with its loop over the characters. */
  method GetIdentifier(s: string) returns (r: string)
    ensures r == IdentifierOf(s)
  {
    var i := 0;
    while i < |s|
      invariant 0 <= i <= |s|
      invariant forall j :: 0 <= j < i ==> s[j] != '<' && s[j] != '['
    {
      if s[i] == '<' || s[i] == '[' {
        return s[0..i];
      }
      i := i + 1;
    }
    return s;
  }

  /**
   * GuessType: the C++ type to declare for a value whose type the
   * translator does not know, and the value itself, unchanged.
   */
  function GuessType(value: string): (r: (string, string))
    ensures r.1 == value
    ensures value == "" ==> r.0 == "auto"
    ensures |value| > 0 && value[0] == '\'' ==> r.0 == "char"
    ensures |value| > 0 && value[0] == '"' ==> r.0 == "string"
    ensures |value| > 0 && (IsDigit(value[0]) || value[0] == '.') ==>
      r.0 == (if '.' in value || 'E' in value then "float64" else "int")
    ensures value == "true" || value == "false" ==> r.0 == "bool"
    ensures value == NIL || value == NULL ==> r.0 == "void*"
    ensures r.0 in ["auto", "char", "string", "float64", "int", "bool", "void*"]
      || (0 < |r.0| && HasPrefix(value, r.0) && r.0[|r.0| - 1] in "]>")
  {
    if |value| == 0 then ("auto", value)
    else if value[0] == '\'' then ("char", value)
    else if value[0] == '"' then ("string", value)
    else if IsDigit(value[0]) || value[0] == '.' then
      ContainsChar(value, '.');
      ContainsChar(value, 'E');
      if Contains(value, ".") || Contains(value, "E") then ("float64", value) else ("int", value)
    else if value == "true" || value == "false" then ("bool", value)
    else if value == NIL || value == NULL then ("void*", value)
    else if HasPrefix(value, "map<") && MatchOf(value, '<').1 then
      MatchOfCloser(value, '<');
      (value[..MatchOf(value, '<').0 + 1], value)
    else
      var i := IndexAny(value, "[({");
      if i >= 0 && value[i] == '[' && MatchOf(value, '[').1 then
        MatchOfCloser(value, '[');
        (value[..MatchOf(value, '[').0 + 1], value)
      else ("auto", value)
  }

  /** A match that was found lies inside the text, at a closer; the text up to it ends in that closer. */
  lemma MatchOfCloser(s: string, ch: char)
    requires ch != Closing(ch)
    ensures var r := MatchOf(s, ch);
      r.1 ==> 0 <= r.0 < |s| && s[r.0] == Closing(ch) && HasPrefix(s, s[..r.0 + 1]) && s[..r.0 + 1][r.0] == Closing(ch)
  {
    MatchOfSpec(s, ch);
  }

  /** The argument shapes FormatMakeAsWritten can take without slicing out of range (n[2:] needs the ", " it expects). */
  predicate MakeArgsOkAsWritten(args: string)
  {
    HasPrefix(args, "map<")
    || (Contains(args, "[]") && |args| - (LastIndexByte(args, ']') + 1) != 1)
    || (!Contains(args, "[]") && |args| - (LastIndexByte(args, '>') + 1) != 1)
  }

  /**
   * FormatMake as printer/cprinter.go writes it: every type text starting
   * with "map<" is taken for a map, a slice of maps included.
   */
  function FormatMakeAsWritten(args: string): string
    requires MakeArgsOkAsWritten(args)
  {
    if HasPrefix(args, "map<") then
      var p := LastIndexByte(args, '>');
      args[..p + 1] + "()"
    else MakeSliceOrChan(args)
  }

  /** How a character moves the bracket depth of a type text: an opener goes in, a closer out. */
  function Nesting(c: char): int
  {
    if c == '(' || c == '[' || c == '{' || c == '<' then 1
    else if c == ')' || c == ']' || c == '}' || c == '>' then -1
    else 0
  }

  /**
   * Reading s from bracket depth d: the depth it ends at, or None when a
   * bracket closes below depth 0 or a comma stands outside every bracket.
   */
  function Walk(s: string, d: int): Option<int>
  {
    if |s| == 0 then Some(d)
    else if d + Nesting(s[0]) < 0 || (d == 0 && s[0] == ',') then None
    else Walk(s[1..], d + Nesting(s[0]))
  }

  /**
   * A type text as the walker renders a Go type: its brackets balance and
   * it holds no comma outside them (a map's and a function type's commas
   * are inside their brackets).
   */
  predicate WellNested(t: string)
  {
    Walk(t, 0) == Some(0)
  }

  /** The length of the text before the first comma outside brackets, reading from depth d; |s| when there is none. */
  function TypeEnd(s: string, d: int): (r: nat)
    ensures r <= |s|
    ensures r < |s| ==> s[r] == ','
  {
    if |s| == 0 || (d == 0 && s[0] == ',') then 0
    else 1 + TypeEnd(s[1..], d + Nesting(s[0]))
  }

  /**
   * make's arguments split where the type ends: the type, then the
   * argument after its ", ", if any.
   */
  function MakeSplit(args: string): (r: (string, string))
    ensures |r.0| <= |args| && args[..|r.0|] == r.0
    ensures |r.0| < |args| ==> args[|r.0|] == ','
    ensures |r.0| + 2 <= |args| ==> r.1 == args[|r.0| + 2..]
    ensures |r.0| + 2 > |args| ==> r.1 == ""
  {
    var c := TypeEnd(args, 0);
    (args[..c], if c + 2 <= |args| then args[c + 2..] else "")
  }

  /**
   * FormatMake, corrected: the arguments are split where the type ends
   * (printer/cprinter.go splits them at their last ']' or '>' instead).
   * A slice type's final "[]" takes the length, a map is constructed
   * empty, and any other type, a channel, is constructed with its
   * capacity, if any, as argument.
   */
  function FormatMake(args: string): (r: string)
    ensures var t, n := MakeSplit(args).0, MakeSplit(args).1;
      (HasSuffix(t, "[]") ==> HasPrefix(r, t[..|t| - 1]) && HasSuffix(r, n + "]"))
      && (!HasSuffix(t, "[]") && HasPrefix(t, "map<") ==> HasPrefix(r, t) && HasSuffix(r, "()"))
      && (!HasSuffix(t, "[]") && !HasPrefix(t, "map<") ==> HasPrefix(r, t + "(") && HasSuffix(r, n + ")"))
  {
    var t, n := MakeSplit(args).0, MakeSplit(args).1;
    if HasSuffix(t, "[]") then MakeArray(t[..|t| - 1], n)
    else if HasPrefix(t, "map<") then MakeEmpty(t)
    else MakeCall(t, n)
  }

  /** A slice type's text without its final ']', the length, then the ']'. */
  function MakeArray(open: string, n: string): (r: string)
    ensures HasPrefix(r, open) && HasSuffix(r, n + "]")
  {
    var r := open + n + "]";
    assert r[..|open|] == open;
    assert r[|r| - |n + "]"|..] == n + "]";
    r
  }

  /** A type constructed with no argument. */
  function MakeEmpty(t: string): (r: string)
    ensures HasPrefix(r, t) && HasSuffix(r, "()")
  {
    var r := t + "()";
    assert r[..|t|] == t && r[|r| - 2..] == "()";
    r
  }

  /** A type constructed with the argument n. */
  function MakeCall(t: string, n: string): (r: string)
    ensures HasPrefix(r, t + "(") && HasSuffix(r, n + ")")
  {
    var r := t + "(" + n + ")";
    assert r[..|t + "("|] == t + "(";
    assert r[|r| - |n + ")"|..] == n + ")";
    r
  }

  /** The slice and channel branches of FormatMake as printer/cprinter.go writes them. */
  function MakeSliceOrChan(args: string): (r: string)
    requires Contains(args, "[]") ==> |args| - (LastIndexByte(args, ']') + 1) != 1
    requires !Contains(args, "[]") ==> |args| - (LastIndexByte(args, '>') + 1) != 1
    ensures Contains(args, "[]") ==> HasSuffix(r, "]")
    ensures !Contains(args, "[]") ==> HasPrefix(r, args[..LastIndexByte(args, '>') + 1] + "(") && HasSuffix(r, ")")
  {
    if Contains(args, "[]") then
      assert args[Index(args, "[]") + 1] == ']';
      FormatMakeSlice(args)
    else FormatMakeChan(args)
  }

  /** make([]T, n): the length moves inside the last "[]" of the type. */
  function FormatMakeSlice(args: string): (r: string)
    requires ']' in args && |args| - (LastIndexByte(args, ']') + 1) != 1
    ensures HasSuffix(r, "]")
  {
    var p := LastIndexByte(args, ']');
    var slicedef, n := args[..p], args[p + 1..];
    var n' := if |n| > 0 then n[2..] else n;
    var r := slicedef + n' + "]";
    assert r[|r| - 1..] == "]";
    r
  }

  /** make(chan T, n): the type up to its last '>' is constructed with the capacity, if any, as argument. */
  function FormatMakeChan(args: string): (r: string)
    requires |args| - (LastIndexByte(args, '>') + 1) != 1
    ensures HasPrefix(r, args[..LastIndexByte(args, '>') + 1] + "(") && HasSuffix(r, ")")
  {
    ChanConstruction(args, LastIndexByte(args, '>'))
  }

  /** The channel type args[..p + 1] constructed with what follows its ", ", if anything does. */
  function ChanConstruction(args: string, p: int): (r: string)
    requires -1 <= p < |args| && |args| - (p + 1) != 1
    ensures HasPrefix(r, args[..p + 1] + "(") && HasSuffix(r, ")")
  {
    var chandef, n := args[..p + 1], args[p + 1..];
    var n' := if |n| > 0 then n[2..] else n;
    var r := chandef + "(" + n' + ")";
    assert r[..|chandef| + 1] == chandef + "(";
    assert r[|r| - 1..] == ")";
    r
  }
}
