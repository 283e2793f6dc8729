/**
 * Properties of the C++ printer of printer/cprinter.go that relate several
 * of its operations: the names the context counters generate, the named
 * results a bare return gives back, the types GuessType recovers from the
 * text the Format* builders produce, and short runs of printer calls as the
 * walker makes them (a function with named results, implicit constants, a
 * method and its receiver).
 */
module PrinterProps {
  import opened GoStrings
  import GoAst
  import opened CFormat
  import opened Printer

  /** A letter, the first character of a type name. */
  predicate IsLetter(c: char)
  {
    'a' <= c <= 'z' || 'A' <= c <= 'Z' || c == '_'
  }

  // ----- where a character is found -----

  lemma IndexByteAt(s: string, c: char, k: nat)
    requires k < |s| && s[k] == c
    requires forall j :: 0 <= j < k ==> s[j] != c
    ensures IndexByte(s, c) == k
  {
  }

  lemma LastIndexByteAt(s: string, c: char, k: nat)
    requires k < |s| && s[k] == c
    requires forall j :: k < j < |s| ==> s[j] != c
    ensures LastIndexByte(s, c) == k
  {
  }

  /** Appended text without `c` leaves the last `c` where it was. */
  lemma LastIndexAppend(a: string, b: string, c: char)
    requires LastIndexByte(a, c) >= 0 && c !in b
    ensures LastIndexByte(a + b, c) == LastIndexByte(a, c)
  {
    var k := LastIndexByte(a, c);
    forall j | k < j < |a + b|
      ensures (a + b)[j] != c
    {
      if j >= |a| {
        assert (a + b)[j] == b[j - |a|];
      }
    }
    LastIndexByteAt(a + b, c, k);
  }

  lemma IndexAnyAt(s: string, chars: string, k: nat)
    requires k < |s| && s[k] in chars
    requires forall j :: 0 <= j < k ==> s[j] !in chars
    ensures IndexAny(s, chars) == k
  {
    IndexAnyFirst(s, chars);
  }

  // ----- the context counters -----

  /** The defer callbacks of one function get pairwise different names. */
  lemma DeferNamesDistinct(j: nat, k: nat)
    requires j != k
    ensures DeferName(j) != DeferName(k)
  {
    assert DeferName(j)[5..] == Itoa(j);
    assert DeferName(k)[5..] == Itoa(k);
    ItoaInjective(j, k);
  }

  /** A decimal number is guessed to be an int. */
  lemma GuessTypeItoa(n: nat)
    ensures GuessType(Itoa(n)) == ("int", Itoa(n))
  {
    var s := Itoa(n);
    assert IsDigit(s[0]);
    forall i | 0 <= i < |s|
      ensures s[i] != '.' && s[i] != 'E'
    {
      assert IsDigit(s[i]);
    }
  }

  /** An implicitly valued constant is declared an int holding its iota value. */
  lemma ConstIota(name: string, k: nat)
    ensures ValueDeclOf("const", "", name, Itoa(k), false, false) == ValueDecl("const", "int", name, Itoa(k))
  {
    GuessTypeItoa(k);
  }

  lemma SmallItoa()
    ensures Itoa(0) == "0" && Itoa(1) == "1" && Itoa(2) == "2"
  {
  }

  /**
   * Three constants without values in a fresh function context: they take
   * the iota values 0, 1 and 2, each declared an int.
   */
  method ImplicitConstants(p: CPrinter, a: string, b: string, c: string)
    requires p.level >= 0
    modifies p
    ensures p.out == old(p.out)
      + ValueText(old(p.sameline), old(p.level), ValueDecl("const", "int", a, "0"))
      + ValueText(false, old(p.level), ValueDecl("const", "int", b, "1"))
      + ValueText(false, old(p.level), ValueDecl("const", "int", c, "2"))
    ensures p.ctx == [Fresh.(iota := 3)] + old(p.ctx)
    ensures p.level == old(p.level) && !p.sameline
  {
    SmallItoa();
    ConstIota(a, 0);
    ConstIota(b, 1);
    ConstIota(c, 2);
    p.PushContext();
    p.PrintValue("const", "", a, "", false, false);
    assert p.ctx[0].iota == 1;
    p.PrintValue("const", "", b, "", false, false);
    assert p.ctx[0].iota == 2;
    p.PrintValue("const", "", c, "", false, false);
  }

  // ----- named results and bare returns -----

  /** The list of result names FormatPair builds up: each name followed by ", ". */
  function RetValues(names: seq<string>): (r: string)
    ensures |names| == 0 ==> r == ""
  {
    if |names| == 0 then "" else RetValues(names[..|names| - 1]) + names[|names| - 1] + COMMA
  }

  lemma {:induction false} RetValuesJoin(names: seq<string>)
    requires |names| > 0
    ensures RetValues(names) == Join(names, ", ") + COMMA
  {
    if |names| > 1 {
      var init, last := names[..|names| - 1], names[|names| - 1];
      RetValuesJoin(init);
      JoinSnoc(init, last, ", ");
      assert init + [last] == names;
    }
  }

  /** Text not ending in ',' or ' ' followed by ", " trims back to itself. */
  lemma TrimComma(s: string)
    requires |s| > 0 && s[|s| - 1] != ',' && s[|s| - 1] != ' '
    ensures Chop(s + COMMA) == s
  {
    var t := s + COMMA;
    var r := Chop(t);
    ChopDropped(t);
    assert t[|s| - 1] == s[|s| - 1];
    assert t[|s|] == ',' && t[|s| + 1] == ' ';
    assert |r| > 0 ==> r[|r| - 1] == t[|r| - 1];
    assert |r| == |s|;
    assert t[..|s|] == s;
  }

  /**
   * A bare return gives back the recorded result names, separated by
   * ", " and with no trailing separator, as long as the last name does not
   * itself end in a separator character.
   */
  lemma ChopRetValues(names: seq<string>)
    requires |names| > 0
    requires var last := names[|names| - 1]; |last| > 0 && last[|last| - 1] != ',' && last[|last| - 1] != ' '
    ensures Chop(RetValues(names)) == Join(names, ", ")
  {
    RetValuesJoin(names);
    var last := names[|names| - 1];
    var j := Join(names, ", ");
    if |names| > 1 {
      JoinSnoc(names[..|names| - 1], last, ", ");
      assert names[..|names| - 1] + [last] == names;
      assert j[|j| - 1] == last[|last| - 1];
    }
    TrimComma(j);
  }

  /** A type with no array suffix and no pointer star is kept as it is by FormatPair. */
  lemma DeclaratorPlain(name: string, value: string)
    requires '[' !in value && '*' !in value
    ensures Declarator(name, value) == (name, value)
  {
    assert LastIndexByte(value, '[') == -1;
    assert !HasPrefix(value, "*") by {
      if |value| > 0 {
        assert value[..1][0] == value[0];
      }
    }
  }

  /**
   * The named results of a function, printed as parameters of its header:
   * each is recorded in the new function context, its declaration for the
   * body and its name for bare returns.
   */
  method RecordNamedResults(p: CPrinter, a: string, ta: string, b: string, tb: string)
    requires a != "" && b != ""
    requires '[' !in ta && '*' !in ta && '[' !in tb && '*' !in tb
    modifies p
    ensures p.ctx == [Fresh.(retDefinitions := ta + " " + a + ";" + tb + " " + b + ";", retValues := RetValues([a, b]))] + old(p.ctx)
    ensures p.out == old(p.out) && p.level == old(p.level)
  {
    ghost var rest := p.ctx;
    p.PushContext();
    DeclaratorPlain(a, ta);
    var _ := p.FormatPair(Pair(a, ta), Result);
    assert p.ctx == [RecordResult(Fresh, a, ta)] + rest;
    DeclaratorPlain(b, tb);
    var _ := p.FormatPair(Pair(b, tb), Result);
    assert p.ctx == [RecordResult(RecordResult(Fresh, a, ta), b, tb)] + rest;
    RecordTwo(a, ta, b, tb);
  }

  /** Two named results recorded in a fresh context: both declarations, and both names for a bare return. */
  lemma RecordTwo(a: string, ta: string, b: string, tb: string)
    ensures RecordResult(RecordResult(Fresh, a, ta), b, tb)
      == Fresh.(retDefinitions := ta + " " + a + ";" + tb + " " + b + ";", retValues := RetValues([a, b]))
  {
    assert [a, b][..1] == [a];
    assert [a][..0] == [];
    assert RetValues([a, b]) == "" + a + COMMA + b + COMMA;
    assert "" + ta + " " + a + ";" + tb + " " + b + ";" == ta + " " + a + ";" + tb + " " + b + ";";
  }

  /**
   * A bare return in a function whose result names were recorded returns
   * them all, in order; with several results, as one make_tuple(...).
   */
  method BareReturn(p: CPrinter, names: seq<string>, tuple: bool)
    requires p.CanIndent() && |p.ctx| > 0 && p.ctx[0].retValues == RetValues(names)
    requires |names| > 0
    requires var last := names[|names| - 1]; |last| > 0 && last[|last| - 1] != ',' && last[|last| - 1] != ' '
    modifies p
    ensures var e := Join(names, ", ");
      p.out == old(p.out) + StmtText(old(p.sameline), old(p.level), "return", if tuple then "make_tuple(" + e + ")" else e, 0)
  {
    ChopRetValues(names);
    p.PrintReturn("", tuple);
  }

  /** A block opened twice in one function body declares the named results only the first time. */
  method NestedCodeBlocks(p: CPrinter)
    requires p.level >= 0 && |p.ctx| > 0
    modifies p
    ensures p.out == old(p.out)
      + BlockStartText(old(p.sameline), old(p.level), Code, old(p.ctx)[0].retDefinitions)
      + Line(false, old(p.level) + 1, ["{"], NL)
      + BlockEndText(false, old(p.level) + 2, Code)
      + BlockEndText(false, old(p.level) + 1, Code)
    ensures p.level == old(p.level) && |p.ctx| == |old(p.ctx)| && p.ctx[0].retDefinitions == ""
  {
    p.PrintBlockStart(Code);
    InnerCodeBlock(p);
    p.PrintBlockEnd(Code);
  }

  /** Once the named results are declared, an inner block of the function body prints only its brackets. */
  method InnerCodeBlock(p: CPrinter)
    requires !p.sameline && p.level >= 0 && |p.ctx| > 0 && p.ctx[0].retDefinitions == ""
    modifies p
    ensures p.out == old(p.out) + Line(false, old(p.level), ["{"], NL) + BlockEndText(false, old(p.level) + 1, Code)
    ensures p.level == old(p.level) && p.ctx == old(p.ctx) && !p.sameline
  {
    p.PrintBlockStart(Code);
    p.PrintBlockEnd(Code);
  }

  /** PushContext followed by PopContext restores the context stack, and nothing else changes. */
  method PushPop(p: CPrinter)
    modifies p
    ensures p.ctx == old(p.ctx) && p.level == old(p.level) && p.sameline == old(p.sameline) && p.out == old(p.out)
  {
    p.PushContext();
    assert p.ctx[0] == Fresh;
    p.PopContext();
  }

  // ----- methods and their receiver -----

  /** A receiver "T r" splits into its type and its name. */
  lemma CutSpaceOf(t: string, n: string)
    requires ' ' !in t
    ensures CutSpace(t + " " + n) == (t, n)
  {
    var s := t + " " + n;
    IndexByteAt(s, ' ', |t|);
    assert s[..|t|] == t;
    assert s[|t| + 1..] == n;
  }

  /**
   * A method header: within the method, its receiver is reached through
   * `this->` and any other object with a dot.
   */
  method MethodReceiver(p: CPrinter, t: string, n: string, name: string, params: string, results: string, sel: string)
    requires ' ' !in t && |p.ctx| > 0
    modifies p
    ensures p.out == old(p.out) + FuncHeader(t + " " + n, name, params, results)
    ensures p.FormatSelector(n, sel, true) == "this->" + sel
    ensures forall m :: m != n ==> p.FormatSelector(m, sel, true) == m + "." + sel
  {
    CutSpaceOf(t, n);
    p.PrintFunc(t + " " + n, name, params, results);
  }

  // ----- result lists -----

  /**
   * A list of comma-free names is a multi-value list exactly when it has
   * more than one name; the printer then declares a tuple.
   */
  lemma MultiValueNames(names: seq<string>)
    requires forall i :: 0 <= i < |names| ==> ',' !in names[i]
    ensures IsMultiValue(GoAst.ParseNames(names)) <==> |names| > 1
    ensures |names| > 1 ==> ResultType(GoAst.ParseNames(names)) == "tuple<" + GoAst.ParseNames(names) + ">"
    ensures |names| == 1 && names[0] != "" ==> ResultType(GoAst.ParseNames(names)) == names[0]
  {
    ContainsChar(GoAst.ParseNames(names), ',');
  }

  // ----- function type templates -----

  /** A function type template with a name filled in is the C declaration of a function of that name. */
  lemma FuncTypeNamed(params: string, results: string, name: string)
    requires '%' !in results
    ensures FillTemplate(FormatFuncType(params, results, true), name) == ResultType(results) + " " + name + "(" + params + ")"
  {
    var r := ResultType(results);
    var tail := "(" + params + ")";
    assert FormatFuncType(params, results, true) == (r + " ") + "%s" + tail;
    FillTemplateAt(r + " ", tail, name);
  }

  /** The template of a function type: the result type, a blank, the slot for the name, the parameters. */
  lemma FuncTypeShape(params: string, results: string)
    requires '%' !in results
    ensures FormatFuncType(params, results, true) == (ResultType(results) + " ") + "%s" + ("(" + params + ")")
    ensures '%' !in ResultType(results) + " "
  {
  }

  /** A function literal: the template with no name, followed by the body. */
  lemma FuncLitText(params: string, results: string, body: string)
    requires '%' !in results && '%' !in params
    ensures FormatFuncLit(FormatFuncType(params, results, true), body) == ResultType(results) + " " + "(" + params + ")" + body
  {
    var head, tail := ResultType(results) + " ", "(" + params + ")";
    FuncTypeShape(params, results);
    assert FormatFuncType(params, results, true) + "%s" == head + "%s" + tail + "%s";
    assert '%' !in tail;
    FillTwice(head, tail, body);
    Grow(head, "(", params);
    Grow(head, "(" + params, ")");
  }

  /** Filling the first "%s" with nothing and the second with `body`. */
  lemma FillTwice(head: string, tail: string, body: string)
    requires '%' !in head && '%' !in tail
    ensures FillTemplate(FillTemplate(head + "%s" + tail + "%s", ""), body) == head + tail + body
  {
    assert head + "%s" + tail + "%s" == head + "%s" + (tail + "%s");
    FillTemplateAt(head, tail + "%s", "");
    assert head + "" + (tail + "%s") == (head + tail) + "%s" + "";
    assert '%' !in head + tail;
    FillTemplateAt(head + tail, "", body);
  }

  // ----- declarators -----

  /** A type ending in "]" whose element type has no leading star: its last "[...]" moves behind the name. */
  lemma DeclaratorSuffix(name: string, value: string, i: nat)
    requires name != "" && HasSuffix(value, "]") && LastIndexByte(value, '[') == i
    requires !HasPrefix(value[..i], "*")
    ensures Declarator(name, value) == (name + value[i..], value[..i])
  {
  }

  /** An array type's "[n]" moves behind a name. */
  lemma DeclaratorArray(name: string, elt: string, n: string)
    requires name != "" && '[' !in n && (elt == "" || elt[0] != '*')
    ensures Declarator(name, FormatArray(n, elt)) == (name + "[" + n + "]", elt)
  {
    var tail := "[" + n + "]";
    BracketTail(n);
    assert !HasPrefix(elt, "*") by {
      if |elt| > 0 {
        assert elt[..1][0] == elt[0];
      }
    }
    DeclaratorTail(name, elt, tail);
    Grow(elt, "[", n);
    Grow3(elt, "[", n, "]");
    Grow(name, "[", n);
    Grow3(name, "[", n, "]");
  }

  lemma BracketTail(n: string)
    requires '[' !in n
    ensures var tail := "[" + n + "]";
      |tail| >= 2 && tail[0] == '[' && tail[|tail| - 1] == ']'
      && forall j :: 0 < j < |tail| ==> tail[j] != '['
  {
    var tail := "[" + n + "]";
    forall j | 0 < j < |tail|
      ensures tail[j] != '['
    {
      if j < |tail| - 1 {
        assert tail[j] == n[j - 1];
      }
    }
  }

  /** A type that ends in a last "[...]": the bracketed part moves behind a name. */
  lemma DeclaratorTail(name: string, elt: string, tail: string)
    requires name != "" && !HasPrefix(elt, "*")
    requires |tail| >= 2 && tail[0] == '[' && tail[|tail| - 1] == ']'
    requires forall j :: 0 < j < |tail| ==> tail[j] != '['
    ensures Declarator(name, elt + tail) == (name + tail, elt)
  {
    var v := elt + tail;
    var k := |elt|;
    assert LastIndexByte(v, '[') == k by {
      forall j | k < j < |v|
        ensures v[j] != '['
      {
        assert v[j] == tail[j - k];
      }
      LastIndexByteAt(v, '[', k);
    }
    assert HasSuffix(v, "]") by {
      assert v[|v| - 1..] == [v[|v| - 1]];
    }
    assert v[..k] == elt && v[k..] == tail;
    DeclaratorSuffix(name, v, k);
  }

  /** A pointer type's leading star moves behind the type. */
  lemma DeclaratorPointer(name: string, t: string)
    requires t != "" && '*' !in t && t[|t| - 1] != ']'
    ensures Declarator(name, "*" + t) == (name, t + "*")
  {
    var v := "*" + t;
    assert v[|v| - 1] == t[|t| - 1];
    assert !HasSuffix(v, "]");
    assert v[..1] == "*";
    LastIndexByteAt(v, '*', 0);
    assert v[1..] == t;
  }

  /** A struct field of Go type `[n]T` is declared in C order, `T name[n]`. */
  lemma PairArrayField(name: string, elt: string, n: string)
    requires name != "" && elt != "" && '[' !in n && elt[0] != '*'
    ensures var d := Declarator(name, FormatArray(n, elt));
      PairText(d.0, d.1, Field) == elt + " " + name + "[" + n + "]"
  {
    DeclaratorArray(name, elt, n);
    var a := elt + " ";
    assert PairText(name + "[" + n + "]", elt, Field) == a + (name + "[" + n + "]");
    Grow3(a, name + "[", n, "]");
    Grow(a, name + "[", n);
    Grow(a, name, "[");
  }

  /** A struct field of Go type `*T` is declared as `T* name`. */
  lemma PairPointerField(name: string, t: string)
    requires name != "" && t != "" && '*' !in t && t[|t| - 1] != ']'
    ensures var d := Declarator(name, "*" + t);
      PairText(d.0, d.1, Field) == t + "*" + " " + name
  {
    DeclaratorPointer(name, t);
  }

  /** A parameter of Go function type gets its name inside the function type: `R name(params)`. */
  lemma PairFuncParam(name: string, params: string, results: string)
    requires '%' !in results && (results == "" || results[0] != '*')
    ensures var d := Declarator(name, FormatFuncType(params, results, true));
      PairText(d.0, d.1, Param) == ResultType(results) + " " + name + "(" + params + ")"
  {
    var v := FormatFuncType(params, results, true);
    var head := ResultType(results) + " ";
    FuncTypeShape(params, results);
    assert !HasSuffix(v, "]") by {
      assert v[|v| - 1] == ')';
      assert v[|v| - 1..] == [v[|v| - 1]];
    }
    assert !HasPrefix(v, "*") by {
      assert v[0] == head[0];
      assert v[..1] == [v[0]];
    }
    assert Declarator(name, v) == (name, v);
    assert OccursAt(v, "%s", |head|) by {
      assert v == head + "%s" + ("(" + params + ")");
      assert v[|head|..|head| + 2] == "%s";
    }
    ContainsWitness(v, "%s", |head|);
    FuncTypeNamed(params, results, name);
  }

  /** A variable of array type: "[n]" moves from the type onto the names. */
  lemma ArrayDeclaration(names: string, elt: string, n: string, values: string)
    requires elt != "" && '[' !in elt
    ensures ValueDeclOf("", FormatArray(n, elt), names, values, false, false) == ValueDecl("", elt, names + "[" + n + "]", values)
  {
    var t := FormatArray(n, elt);
    ArrayTypeBracket(elt, n);
    var r := ValueDeclOf("", t, names, values, false, false);
    var i := IndexByte(t, '[');
    assert r.typedef == t[..i] && r.names == names + t[i..];
    assert r.vtype == "" && r.values == values;
    assert r == ValueDecl("", t[..i], names + t[i..], values);
  }

  /** The first '[' of an array type "T[n]" is the one after T. */
  lemma ArrayTypeBracket(elt: string, n: string)
    requires '[' !in elt
    ensures var t := FormatArray(n, elt);
      '[' in t && IndexByte(t, '[') == |elt| && t[..|elt|] == elt && t[|elt|..] == "[" + n + "]"
  {
    var t := FormatArray(n, elt);
    assert t[|elt|] == '[';
    forall j | 0 <= j < |elt|
      ensures t[j] != '['
    {
      assert t[j] == elt[j];
    }
    IndexByteAt(t, '[', |elt|);
    assert t[..|elt|] == elt;
    assert t[|elt|..] == "[" + n + "]";
  }

  // ----- GuessType on literals -----

  /** findMatch's scan passes over a stretch holding neither the opener nor its closer. */
  lemma {:induction false} MatchScanSkip(s: string, ch: char, p: nat, q: nat, cnt: int)
    requires p <= q <= |s|
    requires forall i :: p <= i < q ==> s[i] != ch && s[i] != Closing(ch)
    ensures MatchScan(s, ch, p, cnt) == MatchScan(s, ch, q, cnt)
    decreases q - p
  {
    if p < q {
      MatchScanSkip(s, ch, p + 1, q, cnt);
    }
  }

  /**
   * GuessType of a value that starts with a letter and whose first bracket
   * of any kind is a '[' closed at `close`: the text up to that closer.
   */
  lemma GuessBracketed(v: string, k: nat, close: nat)
    requires k < |v| && IsLetter(v[0]) && v[k] == '[' && !HasPrefix(v, "map<")
    requires IndexAny(v, "[({") == k && MatchOf(v, '[') == (close, true) && close < |v|
    ensures GuessType(v).0 == v[..close + 1]
  {
    NotWord(v, k, "true");
    NotWord(v, k, "false");
    NotWord(v, k, NIL);
    NotWord(v, k, NULL);
  }

  /** Text holding a character is no word without it. */
  lemma NotWord(v: string, k: nat, w: string)
    requires k < |v| && v[k] !in w
    ensures v != w
  {
  }

  /**
   * The composite literal of an array type: GuessType recovers the array
   * type from the literal's text.
   */
  lemma GuessArrayLiteral(len: string, elt: string, body: string)
    requires elt != "" && IsLetter(elt[0])
    requires '[' !in elt && '(' !in elt && '{' !in elt && '<' !in elt
    requires '[' !in len && ']' !in len
    ensures GuessType(FormatCompositeLit(FormatArray(len, elt), body)).0 == FormatArray(len, elt)
  {
    var t := FormatArray(len, elt);
    var v := FormatCompositeLit(t, body);
    ArrayLiteralShape(len, elt, body);
    GuessBracketed(v, |elt|, |elt| + |len| + 1);
  }

  /** The text of an array literal: the element type, then the first bracket, matched where the type ends. */
  lemma ArrayLiteralShape(len: string, elt: string, body: string)
    requires elt != "" && IsLetter(elt[0])
    requires '[' !in elt && '(' !in elt && '{' !in elt && '<' !in elt
    requires '[' !in len && ']' !in len
    ensures var v := FormatCompositeLit(FormatArray(len, elt), body);
      var k, close := |elt|, |elt| + |len| + 1;
      k < |v| && IsLetter(v[0]) && v[k] == '[' && !HasPrefix(v, "map<")
      && IndexAny(v, "[({") == k && MatchOf(v, '[') == (close, true) && close < |v|
      && v[..close + 1] == FormatArray(len, elt)
  {
    var t := FormatArray(len, elt);
    var v := FormatCompositeLit(t, body);
    var k := |elt|;
    var close := k + |len| + 1;
    assert v == elt + ("[" + len + "]" + "{" + body + "}");
    assert v[..close + 1] == t;
    assert forall j :: 0 <= j < k ==> v[j] == elt[j];
    assert forall j :: k < j < close ==> v[j] == len[j - k - 1];
    BracketedTypeShape(v, len, elt);
  }

  /** A text that starts with an array type: its first bracket opens the length, matched where the type ends. */
  lemma BracketedTypeShape(v: string, len: string, elt: string)
    requires elt != "" && IsLetter(elt[0])
    requires '[' !in elt && '(' !in elt && '{' !in elt && '<' !in elt
    requires '[' !in len && ']' !in len
    requires |elt| + |len| + 1 < |v|
    requires v[|elt|] == '[' && v[|elt| + |len| + 1] == ']'
    requires forall j :: 0 <= j < |elt| ==> v[j] == elt[j]
    requires forall j :: |elt| < j < |elt| + |len| + 1 ==> v[j] == len[j - |elt| - 1]
    ensures IsLetter(v[0]) && !HasPrefix(v, "map<")
    ensures IndexAny(v, "[({") == |elt| && MatchOf(v, '[') == (|elt| + |len| + 1, true)
  {
    var k := |elt|;
    var close := k + |len| + 1;
    assert v[0] == elt[0];
    assert forall j :: 0 <= j < k ==> v[j] != '<' by {
      forall j | 0 <= j < k
        ensures v[j] != '<'
      {
        assert v[j] == elt[j];
      }
    }
    NotMapPrefix(v, k);
    IndexAnyAt(v, "[({", k);
    IndexByteAt(v, '[', k);
    MatchScanSkip(v, '[', k + 1, close, 1);
  }

  lemma NotMapPrefix(v: string, k: nat)
    requires k < |v| && v[k] == '['
    requires forall j :: 0 <= j < k ==> v[j] != '<'
    ensures !HasPrefix(v, "map<")
  {
    if 4 <= |v| {
      assert v[..4][3] == v[3];
      if k < 4 {
        assert v[..4][k] == v[k];
      }
    }
  }

  /** The composite literal of a map type: GuessType recovers the map type from the literal's text. */
  lemma GuessMapLiteral(key: string, elt: string, body: string)
    requires '<' !in key && '>' !in key && '<' !in elt && '>' !in elt
    ensures GuessType(FormatCompositeLit(FormatMap(key, elt), body)).0 == FormatMap(key, elt)
  {
    var v := FormatCompositeLit(FormatMap(key, elt), body);
    MapLiteralShape(key, elt, body);
    NotWord(v, 3, "true");
    NotWord(v, 3, "false");
    NotWord(v, 3, NIL);
    NotWord(v, 3, NULL);
  }

  /** The text of a map literal: "map<", then the '>' that matches its '<' where the type ends. */
  lemma MapLiteralShape(key: string, elt: string, body: string)
    requires '<' !in key && '>' !in key && '<' !in elt && '>' !in elt
    ensures var m := FormatMap(key, elt);
      var v := FormatCompositeLit(m, body);
      3 < |m| <= |v| && v[0] == 'm' && v[3] == '<' && HasPrefix(v, "map<")
      && MatchOf(v, '<') == (|m| - 1, true) && v[..|m|] == m
  {
    var m := FormatMap(key, elt);
    var v := FormatCompositeLit(m, body);
    var close := |m| - 1;
    assert v[..close + 1] == m && v[..4] == "map<" && v[close] == '>' && close < |v| by {
      assert v == m + ("{" + body + "}");
      assert m[..4] == "map<";
    }
    assert v[0] == 'm' && v[3] == '<' by {
      assert v[..4][0] == v[0] && v[..4][3] == v[3];
    }
    assert IndexByte(v, '<') == 3 by {
      forall j | 0 <= j < 3
        ensures v[j] != '<'
      {
        assert v[..4][j] == v[j];
      }
      IndexByteAt(v, '<', 3);
    }
    assert MatchOf(v, '<') == (close, true) by {
      forall i | 4 <= i < close
        ensures v[i] != '<' && v[i] != '>'
      {
        assert v[i] == m[i];
        if i < 4 + |key| {
          assert m[i] == key[i - 4];
        } else if i >= 6 + |key| {
          assert m[i] == elt[i - 6 - |key|];
        }
      }
      MatchScanSkip(v, '<', 4, close, 1);
    }
  }

  // ----- make -----

  /** Reading a + b is reading a, then b from the depth a ends at. */
  lemma {:induction false} WalkConcat(a: string, b: string, d: int)
    ensures Walk(a + b, d) == (if Walk(a, d).None? then None else Walk(b, Walk(a, d).value))
    decreases |a|
  {
    if |a| == 0 {
      assert a + b == b;
    } else {
      assert (a + b)[0] == a[0];
      assert (a + b)[1..] == a[1..] + b;
      WalkConcat(a[1..], b, d + Nesting(a[0]));
    }
  }

  /** Text read one or more levels deeper ends as many levels deeper: its commas are then inside brackets. */
  lemma {:induction false} WalkDeeper(s: string, d: int, k: nat)
    requires d >= 0 && Walk(s, d).Some?
    ensures Walk(s, d + k) == Some(Walk(s, d).value + k)
    decreases |s|
  {
    if |s| > 0 {
      WalkDeeper(s[1..], d + Nesting(s[0]), k);
    }
  }

  /** No comma inside a type text ends the type: it ends where the text does. */
  lemma {:induction false} TypeEndAfter(t: string, rest: string, d: int)
    requires d >= 0 && Walk(t, d) == Some(0)
    ensures TypeEnd(t + rest, d) == |t| + TypeEnd(rest, 0)
    decreases |t|
  {
    if |t| == 0 {
      assert t + rest == rest;
    } else {
      assert (t + rest)[0] == t[0];
      assert (t + rest)[1..] == t[1..] + rest;
      TypeEndAfter(t[1..], rest, d + Nesting(t[0]));
    }
  }

  /** make's arguments split into their type text and what follows its ", ", whatever that holds. */
  lemma SplitType(t: string, n: string)
    requires WellNested(t)
    ensures MakeSplit(t + COMMA + n) == (t, n)
    ensures MakeSplit(t) == (t, "")
  {
    var args := t + COMMA + n;
    Grow(t, COMMA, n);
    TypeEndAfter(t, COMMA + n, 0);
    assert TypeEnd(COMMA + n, 0) == 0;
    assert args[..|t|] == t && args[|t| + 2..] == n;
    TypeEndAfter(t, "", 0);
    assert t + "" == t;
  }

  /** A slice type "T[]" of a type text is a type text. */
  lemma SliceNested(elt: string)
    requires WellNested(elt)
    ensures WellNested(FormatArray("", elt))
  {
    assert FormatArray("", elt) == elt + "[]";
    WalkConcat(elt, "[]", 0);
    var e := Walk(elt, 0);
    if e.Some? {
      assert ("[]")[1..] == "]" && ("]")[1..] == "";
      assert Walk("]", e.value + 1) == (if e.value < 0 then None else Some(e.value));
      assert Walk("[]", e.value) == (if e.value + 1 < 0 then None else Walk("]", e.value + 1));
    }
  }

  /** A map type of two type texts is a type text: its comma is inside "map<" … ">". */
  lemma MapNested(key: string, value: string)
    requires WellNested(key) && WellNested(value)
    ensures WellNested(FormatMap(key, value))
  {
    WalkDeeper(key, 0, 1);
    WalkDeeper(value, 0, 1);
    var a := "map<";
    assert Walk(a, 0) == Some(1) by {
      assert a[1..] == "ap<" && a[2..] == "p<" && a[3..] == "<" && a[4..] == "";
    }
    WalkConcat(a, key, 0);
    WalkConcat(a + key, ", ", 0);
    assert Walk(", ", 1) == Some(1) by {
      assert (", ")[1..] == " " && (" ")[1..] == "";
    }
    WalkConcat(a + key + ", ", value, 0);
    WalkConcat(a + key + ", " + value, ">", 0);
    assert (">")[1..] == "";
  }

  /** A channel type of a type text is a type text. */
  lemma ChanNested(dir: ChanDir, t: string)
    requires WellNested(t)
    ensures WellNested(FormatChan(dir, t))
  {
    var name := ChanTypeName(dir);
    assert Walk(name, 0) == Some(0) by {
      Unbracketed(name);
    }
    WalkDeeper(t, 0, 1);
    WalkConcat(name, "<", 0);
    assert ("<")[1..] == "";
    WalkConcat(name + "<", t, 0);
    WalkConcat(name + "<" + t, ">", 0);
    assert (">")[1..] == "";
  }

  /** Text without brackets or commas leaves the depth at 0. */
  lemma {:induction false} Unbracketed(s: string)
    requires forall i :: 0 <= i < |s| ==> Nesting(s[i]) == 0 && s[i] != ','
    ensures Walk(s, 0) == Some(0)
    decreases |s|
  {
    if |s| > 0 {
      Unbracketed(s[1..]);
    }
  }

  /** The element type of a well-nested slice type is well nested. */
  lemma SliceNestedElement(elt: string)
    requires WellNested(elt + "[]")
    ensures WellNested(elt)
  {
    WalkConcat(elt, "[]", 0);
    var e := Walk(elt, 0);
    if e.Some? {
      assert ("[]")[1..] == "]" && ("]")[1..] == "";
      assert Walk("]", e.value + 1) == (if e.value < 0 then None else Some(e.value));
      assert Walk("[]", e.value) == (if e.value + 1 < 0 then None else Walk("]", e.value + 1));
    }
  }

  /** make(map[K]V) and make(map[K]V, n) construct an empty map. */
  lemma MakeMap(key: string, elt: string, n: string)
    requires WellNested(key) && WellNested(elt)
    ensures FormatMake(FormatMap(key, elt)) == FormatMap(key, elt) + "()"
    ensures FormatMake(FormatMap(key, elt) + COMMA + n) == FormatMap(key, elt) + "()"
  {
    var m := FormatMap(key, elt);
    MapNested(key, elt);
    SplitType(m, n);
    MapTypeEnds(key, elt);
    assert !HasSuffix(m, "[]") by {
      assert m[|m| - 2..][1] == '>';
    }
  }

  /**
   * make([]T, n) declares an array of n elements of T, whatever the
   * length's text holds; the code as written agrees when T is not a map
   * type and the length holds no ']'.
   */
  lemma MakeSlice(elt: string, n: string)
    requires WellNested(elt)
    ensures var args := FormatArray("", elt) + COMMA + n;
      FormatMake(args) == FormatArray(n, elt)
      && (!HasPrefix(elt, "map<") && ']' !in n ==> MakeArgsOkAsWritten(args) && FormatMakeAsWritten(args) == FormatArray(n, elt))
  {
    var t := FormatArray("", elt);
    var args := t + COMMA + n;
    SliceNested(elt);
    SplitType(t, n);
    assert t[|t| - 2..] == "[]";
    assert t[..|t| - 1] == elt + "[";
    if !HasPrefix(elt, "map<") && ']' !in n {
      assert !HasPrefix(args, "map<") by {
        if |elt| >= 4 {
          assert args[..4] == elt[..4];
        } else {
          assert args[3] != '<';
        }
      }
      SliceArgs(elt, n);
    }
  }

  /** make([]map[K]V, n) declares an array of n empty maps. */
  lemma MakeSliceOfMap(key: string, value: string, n: string)
    requires WellNested(key) && WellNested(value)
    ensures FormatMake(FormatArray("", FormatMap(key, value)) + COMMA + n) == FormatArray(n, FormatMap(key, value))
  {
    MapNested(key, value);
    MakeSlice(FormatMap(key, value), n);
  }

  /**
   * As written, a length ending in an index, as in make([]int, a[0]), has
   * the last ']' of the arguments: they are given back unchanged instead
   * of the array that MakeSlice gives.
   */
  lemma SliceIndexAsWritten(elt: string, x: string, i: string)
    requires !HasPrefix(elt, "map<")
    ensures var args := FormatArray("", elt) + COMMA + FormatArrayIndex(x, i);
      MakeArgsOkAsWritten(args) && FormatMakeAsWritten(args) == args
      && args != FormatArray(FormatArrayIndex(x, i), elt)
  {
    var n := FormatArrayIndex(x, i);
    var args := FormatArray("", elt) + COMMA + n;
    var k := |elt|;
    assert args[k..k + 2] == "[]";
    ContainsWitness(args, "[]", k);
    assert !HasPrefix(args, "map<") by {
      if |elt| >= 4 {
        assert args[..4] == elt[..4];
      } else {
        assert args[3] != '<';
      }
    }
    LastIndexByteAt(args, ']', |args| - 1);
    assert FormatMakeAsWritten(args) == FormatMakeSlice(args);
    assert args[..|args| - 1] + "" + "]" == args;
    assert |FormatArray(n, elt)| + 2 == |args|;
  }

  /** The arguments of make([]T, n): "[]" right after T, and no ']' after it. */
  lemma SliceArgs(elt: string, n: string)
    requires ']' !in n
    ensures var args := FormatArray("", elt) + COMMA + n;
      Contains(args, "[]") && LastIndexByte(args, ']') == |elt| + 1
      && args[..|elt| + 1] == elt + "[" && args[|elt| + 2..] == COMMA + n
      && (!HasPrefix(args, "map<") ==> MakeArgsOkAsWritten(args) && FormatMakeAsWritten(args) == FormatArray(n, elt))
  {
    var args := FormatArray("", elt) + COMMA + n;
    var k := |elt|;
    assert args[k..k + 2] == "[]";
    ContainsWitness(args, "[]", k);
    assert args[k + 1] == ']';
    forall j | k + 1 < j < |args|
      ensures args[j] != ']'
    {
      assert args[j] == (COMMA + n)[j - k - 2];
    }
    LastIndexByteAt(args, ']', k + 1);
    var p := k + 1;
    assert args[..p] == elt + "[";
    assert args[p + 1..] == COMMA + n;
  }

  /** The arguments of make([]map[K]V, n): they start with "map<", and "[]" follows the map type's last '>'. */
  lemma MapSliceArgs(key: string, value: string, n: string)
    requires '>' !in n
    ensures var m := FormatMap(key, value);
      var args := FormatArray("", m) + COMMA + n;
      HasPrefix(args, "map<") && LastIndexByte(args, '>') == |m| - 1 && args[..|m|] == m
      && HasPrefix(args[|m|..], "[]")
  {
    var m := FormatMap(key, value);
    MapTypeEnds(key, value);
    SliceArgsAfter(m, n);
  }

  /** A map type starts with "map<" and ends with '>'. */
  lemma MapTypeEnds(key: string, value: string)
    ensures var m := FormatMap(key, value);
      |m| > 4 && HasPrefix(m, "map<") && m[|m| - 1] == '>'
  {
    assert FormatMap(key, value)[..4] == "map<";
  }

  /** The arguments of make([]T, n) for a type text T that ends in '>'. */
  lemma SliceArgsAfter(m: string, n: string)
    requires |m| > 0 && m[|m| - 1] == '>' && '>' !in n
    ensures var args := FormatArray("", m) + COMMA + n;
      LastIndexByte(args, '>') == |m| - 1 && args[..|m|] == m && HasPrefix(args[|m|..], "[]")
      && (HasPrefix(m, "map<") ==> HasPrefix(args, "map<"))
  {
    var rest := "[]" + COMMA + n;
    assert FormatArray("", m) + COMMA + n == m + rest;
    assert '>' !in rest;
    LastCloser(m, rest);
    assert (m + rest)[|m|..][..2] == rest[..2] == "[]";
    if HasPrefix(m, "map<") {
      PrefixExtend(m, "map<", rest);
    }
  }

  /** A text ending in '>' keeps that '>' as its last one when what follows has none. */
  lemma LastCloser(m: string, rest: string)
    requires |m| > 0 && m[|m| - 1] == '>' && '>' !in rest
    ensures LastIndexByte(m + rest, '>') == |m| - 1 && (m + rest)[..|m|] == m
  {
    var s := m + rest;
    forall j | |m| - 1 < j < |s|
      ensures s[j] != '>'
    {
      assert s[j] == rest[j - |m|];
    }
    LastIndexByteAt(s, '>', |m| - 1);
  }

  /**
   * As written, make([]map[K]V, n) takes the slice of maps for a map and
   * constructs one empty map: the slice and its length are lost.
   */
  lemma SliceOfMapAsWritten(key: string, value: string, n: string)
    requires '>' !in n
    ensures var args := FormatArray("", FormatMap(key, value)) + COMMA + n;
      MakeArgsOkAsWritten(args) && FormatMakeAsWritten(args) == FormatMap(key, value) + "()"
      && FormatMakeAsWritten(args) != FormatArray(n, FormatMap(key, value))
  {
    var m := FormatMap(key, value);
    var args := FormatArray("", m) + COMMA + n;
    MapSliceArgs(key, value, n);
    assert args[..LastIndexByte(args, '>') + 1] == m;
    var r := FormatMakeAsWritten(args);
    assert r[|r| - 1] == ')';
    assert FormatArray(n, m)[|FormatArray(n, m)| - 1] == ']';
  }

  /**
   * The corrected FormatMake gives what the code as written gives when
   * the last ']' or '>' of the arguments is the one that ends the type:
   * a slice type not of maps, a map type, or a channel type without
   * brackets, followed by an argument without brackets.
   */
  lemma MakeAgrees(t: string, n: string)
    requires WellNested(t) && '[' !in n && ']' !in n && '>' !in n
    requires (HasSuffix(t, "[]") && !HasPrefix(t, "map<"))
      || (|t| > 0 && t[|t| - 1] == '>' && (HasPrefix(t, "map<") || '[' !in t))
    ensures MakeArgsOkAsWritten(t + COMMA + n) && FormatMakeAsWritten(t + COMMA + n) == FormatMake(t + COMMA + n)
  {
    if HasSuffix(t, "[]") && !HasPrefix(t, "map<") {
      SliceAgrees(t, n);
    } else if HasPrefix(t, "map<") {
      MapAgrees(t, n);
    } else {
      ChanAgrees(t, n);
    }
  }

  /** MakeAgrees for a slice type. */
  lemma SliceAgrees(t: string, n: string)
    requires WellNested(t) && ']' !in n && HasSuffix(t, "[]") && !HasPrefix(t, "map<")
    ensures MakeArgsOkAsWritten(t + COMMA + n) && FormatMakeAsWritten(t + COMMA + n) == FormatMake(t + COMMA + n)
  {
    var elt := t[..|t| - 2];
    assert t == FormatArray("", elt) == elt + "[]";
    SliceNestedElement(elt);
    MakeSlice(elt, n);
    assert !HasPrefix(elt, "map<") by {
      if HasPrefix(elt, "map<") {
        PrefixExtend(elt, "map<", "[]");
      }
    }
  }

  /** MakeAgrees for a map type. */
  lemma MapAgrees(t: string, n: string)
    requires WellNested(t) && '>' !in n && |t| > 0 && t[|t| - 1] == '>' && HasPrefix(t, "map<")
    ensures MakeArgsOkAsWritten(t + COMMA + n) && FormatMakeAsWritten(t + COMMA + n) == FormatMake(t + COMMA + n)
  {
    var args := t + COMMA + n;
    SplitType(t, n);
    Grow(t, COMMA, n);
    LastCloser(t, COMMA + n);
    PrefixExtend(t, "map<", COMMA + n);
    assert args[..|t|] == t;
    assert !HasSuffix(t, "[]") by {
      assert t[|t| - 2..][1] == '>';
    }
  }

  /** MakeAgrees for a channel type. */
  lemma ChanAgrees(t: string, n: string)
    requires WellNested(t) && '[' !in n && '>' !in n && |t| > 0 && t[|t| - 1] == '>' && '[' !in t && !HasPrefix(t, "map<")
    ensures MakeArgsOkAsWritten(t + COMMA + n) && FormatMakeAsWritten(t + COMMA + n) == FormatMake(t + COMMA + n)
  {
    var args := t + COMMA + n;
    SplitType(t, n);
    Grow(t, COMMA, n);
    LastCloser(t, COMMA + n);
    assert '[' !in args by {
      assert '[' !in COMMA + n;
    }
    NoBrackets(args);
    NotMapEnd(t, COMMA + n);
    assert !HasSuffix(t, "[]") by {
      assert t[|t| - 2..][1] == '>';
    }
    ChanCallText(args, |t| - 1);
    assert args[..|t|] == t && args[|t| + 2..] == n;
  }

  /** A text that does not start with "map<" and ends in '>' does not start with it once extended. */
  lemma NotMapEnd(t: string, rest: string)
    requires |t| > 0 && t[|t| - 1] == '>' && !HasPrefix(t, "map<")
    ensures !HasPrefix(t + rest, "map<")
  {
    if |t| >= 4 {
      assert (t + rest)[..4] == t[..4];
    } else {
      assert (t + rest)[|t| - 1] == '>';
    }
  }

  /** The code as written splits off a channel's capacity argument, if any, at its last '>'. */
  lemma MakeChanArgs(args: string, p: nat)
    requires p < |args| && args[0] != 'm' && !Contains(args, "[]") && LastIndexByte(args, '>') == p
    requires |args| - (p + 1) != 1
    ensures MakeArgsOkAsWritten(args)
    ensures |args| == p + 1 ==> FormatMakeAsWritten(args) == args + "()"
    ensures |args| > p + 1 ==> FormatMakeAsWritten(args) == args[..p + 1] + "(" + args[p + 3..] + ")"
  {
    NotMapStart(args);
    assert FormatMakeAsWritten(args) == MakeSliceOrChan(args);
    ChanCallText(args, p);
  }

  lemma NotMapStart(args: string)
    requires args != "" && args[0] != 'm'
    ensures !HasPrefix(args, "map<")
  {
    if |args| >= 4 {
      assert args[..4][0] == args[0];
    }
  }

  lemma ChanCallText(args: string, p: nat)
    requires p < |args| && !Contains(args, "[]") && LastIndexByte(args, '>') == p
    requires |args| - (p + 1) != 1
    ensures |args| == p + 1 ==> MakeSliceOrChan(args) == args + "()"
    ensures |args| > p + 1 ==> MakeSliceOrChan(args) == args[..p + 1] + "(" + args[p + 3..] + ")"
  {
    assert MakeSliceOrChan(args) == FormatMakeChan(args);
    ChanText(args, p);
  }

  /** The channel branch as written: the type up to its last '>', then the capacity after its ", ", if any. */
  lemma ChanText(args: string, p: nat)
    requires p < |args| && LastIndexByte(args, '>') == p && |args| - (p + 1) != 1
    ensures |args| == p + 1 ==> FormatMakeChan(args) == args + "()"
    ensures |args| > p + 1 ==> FormatMakeChan(args) == args[..p + 1] + "(" + args[p + 3..] + ")"
  {
    if |args| > p + 1 {
      ChanTextArg(args, p);
    } else {
      ChanTextBare(args, p);
    }
  }

  /** The channel branch as written, without a capacity: the type with empty parentheses. */
  lemma ChanTextBare(args: string, p: nat)
    requires p + 1 == |args| && LastIndexByte(args, '>') == p
    ensures FormatMakeChan(args) == args + "()"
  {
    var chandef, n := args[..p + 1], args[p + 1..];
    assert FormatMakeChan(args) == ChanConstruction(args, p);
    assert chandef == args && n == "";
    assert chandef + "(" + n + ")" == args + "()";
  }

  /** The channel branch as written, with a capacity: the ", " before it is dropped. */
  lemma ChanTextArg(args: string, p: nat)
    requires p + 1 < |args| && LastIndexByte(args, '>') == p && |args| - (p + 1) != 1
    ensures FormatMakeChan(args) == args[..p + 1] + "(" + args[p + 3..] + ")"
  {
    var n := args[p + 1..];
    assert FormatMakeChan(args) == ChanConstruction(args, p);
    assert n[2..] == args[p + 3..];
  }

  /** make(chan T): an unbuffered channel is constructed with no argument, as the code as written does for T without '['. */
  lemma MakeChanUnbuffered(dir: ChanDir, t: string)
    requires WellNested(t)
    ensures FormatMake(FormatChan(dir, t)) == FormatChan(dir, t) + "()"
    ensures '[' !in t ==> MakeArgsOkAsWritten(FormatChan(dir, t)) && FormatMakeAsWritten(FormatChan(dir, t)) == FormatChan(dir, t) + "()"
  {
    var c := FormatChan(dir, t);
    ChanNested(dir, t);
    SplitType(c, "");
    ChanStart(dir, t);
    if '[' !in t {
      ChanShape(dir, t);
      NoBrackets(c);
      MakeChanArgs(c, |c| - 1);
    }
  }

  /** make(chan T, n): the capacity becomes the constructor's argument, as the code as written does when T and n hold no '[' and n no '>'. */
  lemma MakeChanBuffered(dir: ChanDir, t: string, n: string)
    requires WellNested(t)
    ensures FormatMake(FormatChan(dir, t) + COMMA + n) == FormatChan(dir, t) + "(" + n + ")"
    ensures '[' !in t && '[' !in n && '>' !in n ==> var args := FormatChan(dir, t) + COMMA + n;
      MakeArgsOkAsWritten(args) && FormatMakeAsWritten(args) == FormatChan(dir, t) + "(" + n + ")"
  {
    var c := FormatChan(dir, t);
    var args := c + COMMA + n;
    ChanNested(dir, t);
    SplitType(c, n);
    ChanStart(dir, t);
    if '[' !in t && '[' !in n && '>' !in n {
      ChanArgsShape(dir, t, n);
      MakeChanArgs(args, |c| - 1);
    }
  }

  /** A channel type neither ends in "[]" nor starts with "map<". */
  lemma ChanStart(dir: ChanDir, t: string)
    ensures var c := FormatChan(dir, t);
      !HasSuffix(c, "[]") && !HasPrefix(c, "map<")
  {
    var c := FormatChan(dir, t);
    assert c[|c| - 1] == '>';
    assert c[|c| - 2..][1] == '>';
    assert c[0] != 'm' by {
      match dir
      case Bidi =>
      case SendOnly =>
      case RecvOnly =>
    }
    NotMapStart(c);
  }

  /** The arguments of make(chan T, n): the channel type, its last '>', then ", " and the capacity. */
  lemma ChanArgsShape(dir: ChanDir, t: string, n: string)
    requires '[' !in t && '[' !in n && '>' !in n
    ensures var c := FormatChan(dir, t);
      var args := c + COMMA + n;
      |c| < |args| && args[0] != 'm' && !Contains(args, "[]") && LastIndexByte(args, '>') == |c| - 1
      && args[..|c|] == c && args[|c| + 2..] == n
  {
    var c := FormatChan(dir, t);
    var args := c + COMMA + n;
    ChanShape(dir, t);
    assert args[0] != 'm' && !Contains(args, "[]") by {
      assert '[' !in args;
      NoBrackets(args);
    }
    assert LastIndexByte(args, '>') == |c| - 1 by {
      LastIndexAppend(c, COMMA + n, '>');
      Grow(c, COMMA, n);
    }
    assert args[..|c|] == c && args[|c| + 2..] == n;
  }

  /** A channel type starts with its class name and ends with '>', its last '>'. */
  lemma ChanShape(dir: ChanDir, t: string)
    requires '[' !in t
    ensures var c := FormatChan(dir, t);
      |c| > 0 && c[0] != 'm' && c[|c| - 1] == '>' && '[' !in c && LastIndexByte(c, '>') == |c| - 1
  {
    var name := ChanTypeName(dir);
    var c := FormatChan(dir, t);
    assert '[' !in name && name[0] != 'm' by {
      match dir
      case Bidi =>
      case SendOnly =>
      case RecvOnly =>
    }
    assert c == name + "<" + t + ">";
    LastIndexByteAt(c, '>', |c| - 1);
  }

  /** Text with no '[' holds no "[]". */
  lemma NoBrackets(s: string)
    requires '[' !in s
    ensures !Contains(s, "[]")
  {
    forall j | 0 <= j && j + 2 <= |s|
      ensures !OccursAt(s, "[]", j)
    {
      assert s[j..j + 2][0] == s[j];
    }
  }

  // ----- operators -----

  /** AND NOT becomes AND of the complement. */
  lemma AndNot(lhs: string, rhs: string)
    ensures FormatBinary(lhs, "&^", rhs) == FormatBinary(lhs, "&", "~" + rhs)
  {
    assert lhs + " & " + "~" + rhs == lhs + " " + "&" + " " + ("~" + rhs);
  }

  /** The three channel directions give three different C++ types. */
  lemma ChanDirsDistinct(d: ChanDir, e: ChanDir, t: string)
    requires d != e
    ensures FormatChan(d, t) != FormatChan(e, t)
  {
    assert FormatChan(d, t)[0] == ChanTypeName(d)[0];
    assert FormatChan(e, t)[0] == ChanTypeName(e)[0];
  }

  // ----- findings -----

  /**
   * FormatLiteral as written turns the raw string `a"b` into a C literal
   * that ends after "a\\": the escaped backslash closes nothing and the
   * quote that follows ends the string. The corrected FormatLiteral keeps
   * the content.
   */
  lemma RawQuoteAsWritten()
    ensures CUnquote(FormatLiteralAsWritten("`a\"b`")) == None
    ensures CUnquote(FormatLiteral("`a\"b`")) == Some("a\"b")
  {
    var body := "a\\\\\"b";
    assert ("`a\"b`")[1..4] == "a\"b";
    assert FormatLiteralAsWritten("`a\"b`") == "\"" + body + "\"" by {
      RawQuoteReplaced();
    }
    var r := "\"" + body + "\"";
    assert r[1..|r| - 1] == body;
    RawQuoteUnescaped();
  }

  /**
   * As written, a backslash of a raw string is copied unescaped: the raw
   * string `a\nb` (a backslash, then n) becomes the C literal "a\nb", which
   * reads back with a newline; the corrected literal reads back as written.
   */
  lemma RawBackslashAsWritten()
    ensures CUnquote(FormatLiteralAsWritten("`a\\nb`")) == Some("a\nb")
    ensures CUnquote(FormatLiteral("`a\\nb`")) == Some("a\\nb")
  {
    var body := "a\\nb";
    assert ("`a\\nb`")[1..5] == body;
    assert FormatLiteralAsWritten("`a\\nb`") == "\"" + body + "\"" by {
      RawBackslashReplaced();
    }
    var r := "\"" + body + "\"";
    assert r[1..|r| - 1] == body;
    RawBackslashUnescaped();
  }

  /** The body of `a\nb` has no quote and no newline for the code as written to replace. */
  lemma RawBackslashReplaced()
    ensures ReplaceChar(ReplaceChar("a\\nb", '"', "\\\\\""), '\n', "\\n") == "a\\nb"
  {
    assert ReplaceChar("b", '"', "\\\\\"") == "b";
    assert ReplaceChar("nb", '"', "\\\\\"") == "nb";
    assert ReplaceChar("\\nb", '"', "\\\\\"") == "\\nb";
    assert ReplaceChar("a\\nb", '"', "\\\\\"") == "a\\nb";
    assert ReplaceChar("b", '\n', "\\n") == "b";
    assert ReplaceChar("nb", '\n', "\\n") == "nb";
    assert ReplaceChar("\\nb", '\n', "\\n") == "\\nb";
    assert ReplaceChar("a\\nb", '\n', "\\n") == "a\\nb";
  }

  /** Read back, the backslash and n of that body are one newline. */
  lemma RawBackslashUnescaped()
    ensures CUnescape("a\\nb") == Some("a\nb")
  {
    assert ("b")[1..] == "";
    assert CUnescape("") == Some("");
    assert ['b'] + "" == "b";
    assert CUnescape("b") == Some("b");
    assert ("\\nb")[2..] == "b";
    assert ("\\nb")[1] == 'n';
    assert ['\n'] + "b" == "\nb";
    assert CUnescape("\\nb") == Some("\nb");
    assert ['a'] + "\nb" == "a\nb";
    assert ("a\\nb")[1..] == "\\nb";
  }

  /** The quote of `a"b` replaced as written: a backslash pair, then the bare quote. */
  lemma RawQuoteReplaced()
    ensures ReplaceChar(ReplaceChar("a\"b", '"', "\\\\\""), '\n', "\\n") == "a\\\\\"b"
  {
    assert ReplaceChar("b", '"', "\\\\\"") == "b";
    assert ReplaceChar("\"b", '"', "\\\\\"") == "\\\\\"b";
    assert ReplaceChar("a\"b", '"', "\\\\\"") == "a\\\\\"b";
    assert ReplaceChar("b", '\n', "\\n") == "b";
    assert ReplaceChar("\"b", '\n', "\\n") == "\"b";
    assert ReplaceChar("\\\"b", '\n', "\\n") == "\\\"b";
    assert ReplaceChar("\\\\\"b", '\n', "\\n") == "\\\\\"b";
    assert ReplaceChar("a\\\\\"b", '\n', "\\n") == "a\\\\\"b";
  }

  /** Read back, that body stops at the bare quote. */
  lemma RawQuoteUnescaped()
    ensures CUnescape("a\\\\\"b") == None
  {
    assert CUnescape("\"b") == None;
    assert CUnescape("\\\\\"b") == None by {
      assert ("\\\\\"b")[2..] == "\"b";
    }
    assert ("a\\\\\"b")[1..] == "\\\\\"b";
  }

}
