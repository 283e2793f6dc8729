# walkngo core in Dafny

walkngo translates a parsed Go syntax tree into C++-flavoured text. This
project models its three core pieces and proves properties of them.

- **The C++ printer** (`printer/cprinter.go`) has two modules.
  - `Printer` holds the `CPrinter` object. Its state is the indentation
    level, the one-shot same-line flag, the text written so far, and the
    stack of function contexts (`CContext`). Each context carries the iota
    counter, the defer counter, the receiver name, and the declarations and
    names of the named results.
  - `CFormat` holds the pure string builders (`Format*`, `GuessType`,
    `IsMultiValue`, `FormatMake`) and the loops `findMatch` and
    `getIdentifier`. Each loop is a method, proved against a function.
- **The tree walker** (`walker/walker.go`) has two modules.
  - `Walker` is the `GoWalker` class. Its fields are the parent node, the
    flush flag, the capture buffer the printer writes into, and what
    `Flush` has written out. The walker drives an abstract printer, whose
    calls are rendered by a function parameter.
  - `WalkerText` gives, as pure functions of the tree, the text every visit
    and every `parseExpr` produces. The walker's methods are proved against
    these functions.
- **The prototype walker** (`go-walk.go`) is module `GoWalk`. It has:
  - the pure renderers `parseExpr`, `parseExprList`, `parseFieldList` and
    `parseNames`;
  - the `GoPrinter` class, with its level and its standard output;
  - `GoWalker`, a datatype value, because Go's value receiver makes every
    visit work on a copy.
- Shared modules:
  - `GoAst` holds the go/ast datatypes.
  - `GoStrings` holds the parts of Go's `strings` and `strconv` that the
    core uses.
  - `PrinterProps`, `WalkerProps` and `GoWalkProps` hold the lemmas, and the
    client methods that relate several operations.

Each state-changing method states its whole new state. Each renderer is
tied to a text function. The lemmas state what that text means:
- balanced levels;
- the iota values 0, 1, 2;
- distinct defer names;
- named results declared once and returned by a bare return;
- `this->` for the receiver only;
- what GuessType recovers from array and map literals;
- what findMatch finds;
- the ellipsis of a call;
- field-list parentheses and placeholders.

The one-line `Format*` builders have no contract of their own. They are
plain functions, and the lemmas state their properties.

The model follows the code where it departs from the documented design.
The iota counter is not reset when a new constant group starts. It lives in
the function context and starts at 0 only when PushContext installs a fresh
context (printer/cprinter.go:59-61, 178-179, 363-364).

## Model

| member | source | states |
|---|---|---|
| GoAst.IdentString | go-walk.go:80-86 | a nil identifier gives "", any other its name |
| GoAst.IfTrue | walker/walker.go:361-366 | the value when the condition holds, "" otherwise |
| GoAst.ParseNames | walker/walker.go:329-337 | no names give ""; otherwise the text starts with the first name and ends with the last; names without commas give a text with a comma exactly when there are two or more |
| GoAst.Dump | walker/walker.go:162 | the dump of a node starts with "&ast." and ends with "{...}" |
| GoStrings.Join | printer/cprinter.go:96-98 | no parts give "", one part gives itself |
| GoStrings.IndentIsBlanks | printer/cprinter.go:93 | strings.Repeat("  ", n) is exactly 2n blanks |
| GoStrings.IndexFrom | printer/cprinter.go:186 | strings.Index gives the first occurrence at or after the start, or -1 when there is none |
| GoStrings.IndexByte | printer/cprinter.go:694 | -1 exactly when the character is absent; otherwise its first position |
| GoStrings.LastIndexByte | printer/cprinter.go:426 | -1 exactly when the character is absent; otherwise its last position |
| GoStrings.IndexAny | printer/cprinter.go:631 | a found index holds one of the characters |
| GoStrings.IndexAnyFirst | printer/cprinter.go:631 | no character before the found one, and none at all when nothing is found, is in the set |
| GoStrings.TrimRight | printer/cprinter.go:84 | the result is a prefix of the input and does not end in a cut character |
| GoStrings.TrimRightDropped | printer/cprinter.go:84 | everything TrimRight drops is a cut character |
| GoStrings.TrimSpace | walker/walker.go:187 | no white space left at either end |
| GoStrings.TrimSpaceInside | walker/walker.go:187 | the trimmed text occurs inside the input |
| GoStrings.TrimSpaceTrimmed | walker/walker.go:187 | text without white space at its ends is left alone |
| GoStrings.ReplaceChar | printer/cprinter.go:380-381 | no replaced character survives unless the replacement holds it; text without it is unchanged |
| GoStrings.CutSpace | printer/cprinter.go:245 | SplitN at the first blank: the parts joined by a blank give back the input, and the first part has no blank |
| GoStrings.Itoa | printer/cprinter.go:363 | decimal digits with no leading zero |
| GoStrings.AtoiItoa | printer/cprinter.go:363 | reading back Itoa's digits gives the number |
| GoStrings.ItoaInjective | printer/cprinter.go:211 | distinct numbers print differently |
| CFormat.FillTemplate | printer/cprinter.go:168 | Sprintf of a one-slot template: without "%s" the format is returned; with one, the argument takes the two characters of the slot |
| CFormat.FillTemplateAt | printer/cprinter.go:168 | the slot filled is the one written after a prefix free of '%' |
| CFormat.FormatLiteral | printer/cprinter.go:375-387 | corrected (Findings rows 1 and 2): non-raw literals are unchanged; a raw string becomes a C literal that reads back as its content, its quotes, backslashes and newlines escaped |
| CFormat.FormatLiteralAsWritten | printer/cprinter.go:375-387 | as written, a raw string becomes text between double quotes, and other literals are unchanged |
| CFormat.UnescapeEscape | printer/cprinter.go:380-382 | escaping, then unescaping, gives back the text |
| CFormat.UnquoteQuote | printer/cprinter.go:380-384 | a quoted escaped text reads back as the text |
| CFormat.FormatUnary | printer/cprinter.go:405-411 | a receive `<-ch` becomes ch.Receive(); other operators are prefixed |
| CFormat.FormatBinary | printer/cprinter.go:413-420 | operators other than &^ are kept between blanks |
| CFormat.FormatStruct | printer/cprinter.go:502-508 | "struct{}" exactly when there are no fields; otherwise the fields inside "struct {\n" and "}" |
| CFormat.FormatInterface | printer/cprinter.go:510-516 | "struct{}" exactly when there are no methods; otherwise the methods inside "struct {\n" and "}" |
| CFormat.FormatCall | printer/cprinter.go:533-546 | a call is the function, then its arguments in parentheses; a function literal is the lambda `[](args)->` followed by the function; a function of package time is renamed go_time::, every other name is kept, and no result starts with "time::" |
| CFormat.MatchScanBalances | printer/cprinter.go:705-719 | the scan stops at the first point after the opener where openers and closers balance, and fails only if they never balance |
| CFormat.MatchOfSpec | printer/cprinter.go:690-722 | findMatch fails when the opener is absent; a match is the closer where the first opener's nesting depth first returns to zero |
| CFormat.FindMatch | printer/cprinter.go:690-722 | the counting loop computes findMatch; a match is a closer inside the text |
| CFormat.MatchOfCloser | printer/cprinter.go:628-640 | a found match lies inside the text, at a closer |
| CFormat.IdentifierOf | printer/cprinter.go:724-732 | getIdentifier: the prefix before the first '<' or '[', or the whole text |
| CFormat.GetIdentifier | printer/cprinter.go:724-732 | the loop computes that prefix |
| CFormat.IsMultiValue | printer/cprinter.go:651-653 | true exactly when the list holds a comma |
| CFormat.FormatMake | printer/cprinter.go:655-686 | corrected (Findings rows 4 and 5): the arguments are split where the type ends; a slice type keeps its text up to the final ']', then the length and ']'; a map type is followed by "()"; any other type, a channel, by the capacity in parentheses |
| CFormat.MakeSplit | printer/cprinter.go:655-686 | the type is a prefix of make's arguments that ends at a comma or at their end, and the argument is what follows its ", " |
| CFormat.MakeSliceOrChan | printer/cprinter.go:660-685 | as written: with "[]", text ending in "]"; without, the type up to its last '>' followed by "(" … ")" |
| CFormat.FormatMakeSlice | printer/cprinter.go:660-672 | as written, the slice construction ends in "]" |
| CFormat.FormatMakeChan | printer/cprinter.go:673-685 | as written, the channel construction is the type up to its last '>', then "(" and the capacity, then ")" |
| CFormat.GuessType | printer/cprinter.go:578-649 | the value comes back unchanged; the type follows each rule (auto, char, string, float64/int, bool, void*); any other type is a prefix of the value ending in ']' or '>' |
| Printer.Selector | printer/cprinter.go:44-50 | "this->" exactly when the innermost context's receiver is the name; otherwise the name and a dot |
| Printer.Chop | printer/cprinter.go:83-85 | the result is a prefix of the line, and does not end in ',' or ' ' |
| Printer.ChopDropped | printer/cprinter.go:83-85 | Chop drops only ',' and ' ' |
| Printer.IndentText | printer/cprinter.go:87-94 | nothing right after SameLine; otherwise 2·level characters |
| Printer.IndentBlanks | printer/cprinter.go:87-94 | the indentation is blanks only |
| Printer.ImportHeader | printer/cprinter.go:148-164 | an include line exactly for "fmt", "sync", "errors" and "time" |
| Printer.ValueDeclOf | printer/cprinter.go:181-201 | a missing type is guessed; a type without '[' is kept; a type with '[' keeps the part before it and its "[n]" moves onto the names; with a value, tied names become `tie(names)` and tupled values `make_tuple(values)`, otherwise both are kept |
| Printer.StmtValues | printer/cprinter.go:206-218 | go gives a Goroutine lambda, defer a Deferred callback named by the counter, other statements "stmt expr" or just expr |
| Printer.ReturnExpr | printer/cprinter.go:220-230 | an explicit value is returned; a bare return returns the chopped result names; a tuple return wraps either in make_tuple(…) |
| Printer.ResultType | printer/cprinter.go:236-242 | no results give "void"; a list without a comma is kept; a list with a comma becomes tuple<list> |
| Printer.FuncHeader | printer/cprinter.go:232-253 | a parameterless main becomes `int main(int argc, char **argv)`; otherwise result type first and `name(params) ` last; a method is qualified "::" |
| Printer.Signature | printer/cprinter.go:252 | `results receiver name(params) `, with the class qualification just before the name |
| Printer.ReceiverPrefix | printer/cprinter.go:243-248 | "T* r" becomes "/* r */ " followed by the class qualification "T::" |
| Printer.ForHeader | printer/cprinter.go:255-279 | with neither init nor post (once trailing ';' are cut), `while ( cond) `; otherwise `for (init; cond;` then the post after a blank only when there is one, then `) `; a missing condition is `true` |
| Printer.RangeHeader | printer/cprinter.go:282-295 | `for (auto key, value: expr ) `: the blank key `_` gives way to the value alone, and without a value only the key is declared |
| Printer.AssignValues | printer/cprinter.go:333-351 | three parts joined by blanks: the left side (declared with the type guessed from the right for :=, inside tie(…) for a tuple), the operator (:= becomes =), the right side (inside make_tuple(…) for a tuple) |
| Printer.Declarator | printer/cprinter.go:425-446 | no character is lost or added; the name is kept as a prefix and stays empty exactly when it was |
| Printer.PairText | printer/cprinter.go:448-467 | embedded and virtual methods, named results as comments after the type, anonymous fields named by their type, a parameter whose type has a name slot gets the name in it, and otherwise "type name" (the blank only when both are there) |
| Printer.CPrinter.constructor | printer/cprinter.go:19-27 | level 0, no context, nothing written |
| Printer.CPrinter.Reset | printer/cprinter.go:52-57 | level 0, same-line off, no context; the output is kept |
| Printer.CPrinter.PushContext | printer/cprinter.go:59-61 | a fresh context with zero counters and empty accumulators is pushed, and nothing else changes |
| Printer.CPrinter.PopContext | printer/cprinter.go:63-65 | the innermost context is removed, and nothing else changes |
| Printer.CPrinter.UpdateLevel | printer/cprinter.go:71-73 | the level moves by delta, and nothing else changes |
| Printer.CPrinter.SameLine | printer/cprinter.go:75-77 | the flag is set, and nothing else changes |
| Printer.CPrinter.Indent | printer/cprinter.go:87-94 | returns the indentation and clears the same-line flag |
| Printer.CPrinter.Print | printer/cprinter.go:96-98 | appends the values joined by blanks |
| Printer.CPrinter.PrintLevel | printer/cprinter.go:100-102 | appends the indentation, the values and the terminator; the level is kept |
| Printer.CPrinter.PrintLevelIn | printer/cprinter.go:104-108 | the line is indented one level further out, and the level comes back |
| Printer.CPrinter.PrintBlockStart | printer/cprinter.go:110-127 | bracket, level+1; a code block prints the pending result declarations once and clears them |
| Printer.CPrinter.PrintBlockEnd | printer/cprinter.go:129-141 | level−1, then the closing bracket |
| Printer.CPrinter.PrintPackage | printer/cprinter.go:143-146 | the package comment and the runtime include |
| Printer.CPrinter.PrintImport | printer/cprinter.go:148-164 | the import comment and the matching include |
| Printer.CPrinter.PrintType | printer/cprinter.go:166-173 | a typedef; a function type gets the parenthesised name in its slot |
| Printer.CPrinter.FormatIdent | printer/cprinter.go:357-373 | nil → nullptr, string → std::string; iota gives the counter's value and increments it |
| Printer.CPrinter.PrintValue | printer/cprinter.go:175-204 | var is dropped; a const with no value takes the next iota and increments the counter; the declaration is then rewritten |
| Printer.CPrinter.PrintStmt | printer/cprinter.go:206-218 | the statement line; a defer increments the context's defer counter |
| Printer.CPrinter.PrintReturn | printer/cprinter.go:220-230 | a return of the explicit value, or of the recorded result names |
| Printer.CPrinter.PrintFunc | printer/cprinter.go:232-253 | the function header; a method's receiver name becomes the context's receiver |
| Printer.CPrinter.PrintFor | printer/cprinter.go:255-279 | the indentation and the loop header |
| Printer.CPrinter.PrintRange | printer/cprinter.go:282-295 | the indentation and the range header |
| Printer.CPrinter.PrintSwitch | printer/cprinter.go:297-302 | the init line, if any, then the switch header |
| Printer.CPrinter.PrintCase | printer/cprinter.go:304-310 | "case expr:" or "default:" |
| Printer.CPrinter.PrintEndCase | printer/cprinter.go:312-314 | a break line |
| Printer.CPrinter.PrintIf | printer/cprinter.go:316-323 | the init before "if ", then the parenthesised condition |
| Printer.CPrinter.PrintElse | printer/cprinter.go:325-327 | " else " on the current line; the indentation state is untouched |
| Printer.CPrinter.PrintEmpty | printer/cprinter.go:329-331 | an empty statement line |
| Printer.CPrinter.PrintAssignment | printer/cprinter.go:333-351 | the assignment line built from AssignValues |
| Printer.CPrinter.PrintSend | printer/cprinter.go:353-355 | a ch.Send(value) statement line |
| Printer.CPrinter.FormatSelector | printer/cprinter.go:563-569 | the receiver gets this->; another object gets a dot; a package gets :: |
| Printer.CPrinter.FormatPair | printer/cprinter.go:422-476 | methods and fields are indented lines, others are list entries; a named result is recorded in the current context |
| PrinterProps.DeferNamesDistinct | printer/cprinter.go:211-212 | two defers of one function get different callback names |
| PrinterProps.GuessTypeItoa | printer/cprinter.go:593-599 | a decimal number is guessed to be an int |
| PrinterProps.ConstIota | printer/cprinter.go:178-198 | an implicit constant is declared an int holding its iota value |
| PrinterProps.ImplicitConstants | printer/cprinter.go:175-204 | three implicit constants in a fresh context print 0, 1 and 2, and the counter ends at 3 |
| PrinterProps.RetValues | printer/cprinter.go:462 | no result names give "" |
| PrinterProps.RetValuesJoin | printer/cprinter.go:462 | the recorded result names are the names joined by ", " plus a final ", " |
| PrinterProps.TrimComma | printer/cprinter.go:83-85 | Chop removes exactly one appended ", " |
| PrinterProps.ChopRetValues | printer/cprinter.go:220-223 | a bare return gives back the result names in order, with no trailing separator |
| PrinterProps.DeclaratorPlain | printer/cprinter.go:425-446 | a type without brackets or stars is kept with its name |
| PrinterProps.RecordNamedResults | printer/cprinter.go:458-464 | two named results are recorded in order: declarations for the body, names for a bare return |
| PrinterProps.RecordTwo | printer/cprinter.go:458-464 | two recorded results accumulate both declarations and both names, in order |
| PrinterProps.BareReturn | printer/cprinter.go:220-230 | a bare return after recording returns all result names, in order |
| PrinterProps.NestedCodeBlocks | printer/cprinter.go:110-141 | the result declarations are printed only in the first of two nested code blocks; the level returns to where it was |
| PrinterProps.InnerCodeBlock | printer/cprinter.go:110-141 | once declared, an inner block prints only its brackets; level and contexts are kept |
| PrinterProps.PushPop | printer/cprinter.go:59-65 | a push then a pop restores the context stack, and nothing else changes |
| PrinterProps.CutSpaceOf | printer/cprinter.go:245-246 | a receiver "T r" splits into T and r |
| PrinterProps.MethodReceiver | printer/cprinter.go:44-50 | after a method header, the receiver is reached through this->, and every other object through a dot |
| PrinterProps.MultiValueNames | printer/cprinter.go:237-241 | a result list is multi-valued exactly when it has more than one name; it then becomes a tuple |
| PrinterProps.FuncTypeNamed | printer/cprinter.go:548-557 | a function type's template, with a name filled in, is the C declaration of that function |
| PrinterProps.FuncTypeShape | printer/cprinter.go:548-557 | the template: result type, the name slot, then the parameters |
| PrinterProps.FuncLitText | printer/cprinter.go:559-561 | a function literal is its nameless template followed by the body |
| PrinterProps.DeclaratorSuffix | printer/cprinter.go:425-437 | a trailing "[...]" moves from the type onto the name |
| PrinterProps.DeclaratorArray | printer/cprinter.go:478-480 | an array type's "[n]" moves behind the name |
| PrinterProps.DeclaratorPointer | printer/cprinter.go:440-443 | a leading pointer star moves behind the type |
| PrinterProps.PairArrayField | printer/cprinter.go:422-467 | a struct field of Go type [n]T is declared `T name[n]` |
| PrinterProps.PairPointerField | printer/cprinter.go:422-467 | a struct field of Go type *T is declared `T* name` |
| PrinterProps.PairFuncParam | printer/cprinter.go:422-467 | a parameter of function type gets its name inside the function type: `R name(params)` |
| PrinterProps.ArrayDeclaration | printer/cprinter.go:186-190 | a variable of array type carries "[n]" on its names |
| PrinterProps.GuessBracketed | printer/cprinter.go:631-637 | a value whose first bracket is '[' gets as its type the text up to the matching ']' |
| PrinterProps.GuessArrayLiteral | printer/cprinter.go:631-637 | GuessType recovers the array type from an array literal |
| PrinterProps.ArrayLiteralShape | printer/cprinter.go:631-637 | in an array literal, the first bracket is the type's '[', and its match ends the type |
| PrinterProps.GuessMapLiteral | printer/cprinter.go:624-628 | GuessType recovers the map type from a map literal |
| PrinterProps.MapLiteralShape | printer/cprinter.go:624-628 | in a map literal, the '>' matching "map<" ends the type |
| PrinterProps.MakeMap | printer/cprinter.go:656-659 | make(map[K]V) and make(map[K]V, n) are an empty map construction |
| PrinterProps.MakeSlice | printer/cprinter.go:655-672 | corrected: make([]T, n) is an array of n elements of T for every length text, `a[0]` included; the code as written gives the same when T is not a map type and the length holds no ']' |
| PrinterProps.SliceIndexAsWritten | printer/cprinter.go:660-672 | as written, a length ending in an index, as in make([]T, a[i]), gives the arguments back unchanged instead of the array |
| PrinterProps.MakeSliceOfMap | printer/cprinter.go:655-672 | corrected: make([]map<K,V>, n) is an array of n maps, whatever the length text holds |
| PrinterProps.SliceOfMapAsWritten | printer/cprinter.go:655-659 | as written, make([]map<K,V>, n) takes the map branch and gives `map<K,V>()`, not the array |
| PrinterProps.MakeAgrees | printer/cprinter.go:655-686 | the corrected FormatMake gives what the code gives when the argument holds no bracket and the type is a slice type not of maps, a map type, or a channel type without '[' |
| PrinterProps.SliceAgrees | printer/cprinter.go:660-672 | that agreement for a slice type |
| PrinterProps.MapAgrees | printer/cprinter.go:656-659 | that agreement for a map type |
| PrinterProps.ChanAgrees | printer/cprinter.go:673-686 | that agreement for a channel type |
| PrinterProps.SplitType | printer/cprinter.go:655-686 | make's arguments, a well-nested type and ", n", split into that type and n, whatever n holds; a type alone splits into itself and "" |
| PrinterProps.SliceNested | printer/cprinter.go:478-480 | the slice type of a well-nested type is well nested |
| PrinterProps.MapNested | printer/cprinter.go:494-496 | a map type of well-nested types is well nested: its comma is inside "map<" … ">" |
| PrinterProps.ChanNested | printer/cprinter.go:518-531 | a channel type of a well-nested type is well nested |
| PrinterProps.SliceArgs | printer/cprinter.go:660-672 | for a length without ']', the last ']' of make([]T, n)'s arguments closes the "[]", and the code as written gives T[n] |
| PrinterProps.MapSliceArgs | printer/cprinter.go:655-659 | the arguments of make([]map<K,V>, n) start with "map<", and their last '>' ends the map type, right before the "[]" |
| PrinterProps.MakeChanArgs | printer/cprinter.go:673-686 | as written, make of a channel type splits off the capacity after its last '>' |
| PrinterProps.ChanText | printer/cprinter.go:673-685 | as written, the channel branch is the type up to its last '>', then "()" or the capacity after its ", " in parentheses |
| PrinterProps.MakeChanUnbuffered | printer/cprinter.go:673-686 | make(chan T) constructs a channel with no argument, and so does the code as written when T holds no '[' |
| PrinterProps.MakeChanBuffered | printer/cprinter.go:673-686 | make(chan T, n) passes the capacity to the constructor, and so does the code as written when T and n hold no '[' and n no '>' |
| PrinterProps.ChanArgsShape | printer/cprinter.go:673-686 | the arguments of make(chan T, n): the channel type ends at their last '>' |
| PrinterProps.ChanShape | printer/cprinter.go:518-531 | a channel type ends with its last '>' and holds no '[' |
| PrinterProps.AndNot | printer/cprinter.go:413-420 | a &^ b becomes a & ~b |
| PrinterProps.ChanDirsDistinct | printer/cprinter.go:518-531 | the three channel directions give three different C++ types |
| PrinterProps.RawQuoteAsWritten | printer/cprinter.go:379-384 | the raw string `a"b` becomes a literal that does not read back, while the corrected one does |
| PrinterProps.RawQuoteReplaced | printer/cprinter.go:380-381 | as written, the quote of `a"b` becomes two backslashes and a bare quote |
| PrinterProps.RawQuoteUnescaped | printer/cprinter.go:380-384 | that body stops at the bare quote, so it does not read back as a C string body |
| PrinterProps.RawBackslashAsWritten | printer/cprinter.go:379-384 | as written, the raw string `a\nb` (backslash, n) becomes the C literal "a\nb", which reads back with a newline; the corrected literal reads back as `a\nb` |
| PrinterProps.RawBackslashReplaced | printer/cprinter.go:380-381 | as written, a backslash is not replaced: the body of `a\nb` is copied unchanged |
| PrinterProps.RawBackslashUnescaped | printer/cprinter.go:380-384 | read back as a C string body, a backslash followed by n is one newline |
| WalkerText.WrapIf | walker/walker.go:368-373 | a non-empty result list is parenthesised; an empty one stays empty |
| Walker.Emitter.constructor | walker/walker.go:24-26 | a printer at level 0 |
| Walker.Emitter.UpdateLevel | walker/walker.go:85 | the level moves by delta |
| Walker.GoWalker.constructor | walker/walker.go:24-28 | flushing on, no parent, empty buffer and output |
| Walker.GoWalker.Flush | walker/walker.go:172-177 | with flushing on, the buffer moves to the output; with flushing off, nothing changes |
| Walker.GoWalker.Emit | walker/walker.go:84 | a printer call lands in the buffer at the current level |
| Walker.GoWalker.Visit | walker/walker.go:45-170 | corrected (Findings row 3): nil does nothing; every node's text is emitted, and the parent and the level are restored; the walker is returned exactly for unknown kinds |
| Walker.GoWalker.VisitFile | walker/walker.go:54-58 | the package line, then each declaration in order |
| Walker.GoWalker.VisitDecl | walker/walker.go:70-81 | a declaration's text; a bad declaration returns the walker |
| Walker.GoWalker.VisitGenDecl | walker/walker.go:70-73 | each spec, visited with the declaration as parent |
| Walker.GoWalker.VisitFuncDecl | walker/walker.go:75-81 | the header, the body, then a newline |
| Walker.GoWalker.VisitSpec | walker/walker.go:60-68 | import, type or value line; a value spec takes const or var from its GenDecl |
| Walker.GoWalker.VisitStmt | walker/walker.go:83-166 | corrected (Findings row 3): the statement's text, flushed at the end; the walker is returned exactly for unknown kinds |
| Walker.GoWalker.VisitStmtKind | walker/walker.go:83-164 | the dispatch over the statement kinds, with a placeholder for unknown kinds |
| Walker.GoWalker.VisitCompoundStmt | walker/walker.go:83-132 | the statements that have a body |
| Walker.GoWalker.VisitBlockStmt | walker/walker.go:83-90 | "{", the statements one level deeper, then "}" back at the block's level |
| Walker.GoWalker.VisitStmts | walker/walker.go:86-88 | the statements in order, at the current level |
| Walker.GoWalker.VisitIfStmt | walker/walker.go:92-100 | corrected (Findings row 3): the captured init and the condition, the body, the optional else on the same line, a newline |
| Walker.GoWalker.VisitForStmt | walker/walker.go:102-105 | corrected (Findings row 3): captured init and post around the condition, then the body |
| Walker.GoWalker.VisitSwitchStmt | walker/walker.go:107-110 | corrected (Findings row 3): the captured init and the tag, then the body |
| Walker.GoWalker.VisitTypeSwitchStmt | walker/walker.go:112-115 | corrected (Findings row 3): the captured init and the captured assignment, then the body |
| Walker.GoWalker.VisitCaseClause | walker/walker.go:117-127 | "case list:" or "default:", then the body one level deeper, with the level back afterwards |
| Walker.GoWalker.VisitRangeStmt | walker/walker.go:129-132 | the range header, then the body |
| Walker.GoWalker.VisitSimpleStmt | walker/walker.go:134-159 | one printer call per simple statement |
| Walker.GoWalker.StmtCall | walker/walker.go:134-144 | branch, defer, go and return become a PrintStmt call, and nothing is printed while the operand is built |
| Walker.GoWalker.LevelCall | walker/walker.go:146-159 | expression, assignment and inc/dec statements become a PrintLevel call; an empty statement becomes PrintEmpty |
| Walker.GoWalker.BufferVisitStmt | walker/walker.go:179-194 | the trimmed text of the statement is captured, nothing reaches the output, and the buffer and the flush flag are restored |
| Walker.GoWalker.BufferVisit | walker/walker.go:179-194 | corrected (Findings row 3): a nil statement captures "" |
| Walker.GoWalker.BufferVisitAsWritten | walker/walker.go:179-194 | as written, for a statement or nil: with flushing on it captures cleanly; with flushing off it returns the whole buffer, trimmed, and leaves the capture in it |
| Walker.GoWalker.VisitInBuffer | walker/walker.go:181-184 | with flushing off, the visit appends the statement's text (nothing for nil) to the buffer and writes nothing out |
| Walker.NestedCaptureAsWritten | walker/walker.go:187-191 | the buffer keeps the earlier text plus the capture; what is returned is a piece of it |
| Walker.GoWalker.ParseExpr | walker/walker.go:196-300 | corrected (Findings row 3): the expression's text; nothing is printed |
| Walker.GoWalker.ParseTypeExpr | walker/walker.go:207-240 | the text of pointer, array, map, interface, struct, chan, func and ellipsis types |
| Walker.GoWalker.ParseOperatorExpr | walker/walker.go:254-292 | the text of unary, binary, paren, selector, key-value and index expressions |
| Walker.GoWalker.ParseCompoundExpr | walker/walker.go:246-296 | corrected (Findings row 3): the text of composite literals, slices, calls, type assertions and function literals, whose bodies are captured |
| Walker.GoWalker.ParseExprList | walker/walker.go:302-308 | the loop computes the joined list |
| Walker.GoWalker.ParseFieldList | walker/walker.go:310-327 | the loop computes the joined fields; nil gives "" |
| Walker.GoWalker.ParseField | walker/walker.go:313-321 | one field: its names, a blank and its type, or just the type; nothing is printed |
| Walker.GoWalker.ExprOr | walker/walker.go:339-345 | the expression's text, or the default when it is absent |
| WalkerProps.ExprTextsAt | walker/walker.go:302-308 | the i-th rendered element is the i-th expression's text |
| WalkerProps.ExprListAppend | walker/walker.go:302-308 | an empty list gives ""; one element gives its text; one more element adds ", " and its text at the end |
| WalkerProps.FieldTextsAt | walker/walker.go:313-321 | each field is "names type" when it has names, else just its type |
| WalkerProps.FieldListEmpty | walker/walker.go:310-327 | a nil or empty field list gives "" |
| WalkerProps.CallEllipsis | walker/walker.go:283-284 | a call ends in "...)" exactly when its ellipsis position is set |
| WalkerProps.NilAndUnknownExpr | walker/walker.go:196-299 | nil gives ""; an unknown kind gives the visible "/* Expr: ... */" placeholder |
| WalkerProps.ExprClosers | walker/walker.go:246-296 | a call or parenthesised expression ends in ")", an index or slice expression in "]", a composite literal in "}" |
| WalkerProps.MuteStmt | walker/walker.go:83-166 | with a printer that renders every call as nothing, a statement's text is empty: a visit writes only through the printer |
| WalkerProps.MuteStmts | walker/walker.go:86-88 | the same for a statement list |
| WalkerProps.MuteDecl | walker/walker.go:70-81 | the same for a declaration |
| WalkerProps.MuteFile | walker/walker.go:54-58 | the same for a whole file |
| WalkerProps.NestedCaptureDuplicates | walker/walker.go:179-194 | a nested capture as written returns the earlier text too, and leaves its own text in the buffer |
| GoWalk.ExprText | go-walk.go:98-176 | a call ends in ")", an index or slice expression in "]", a composite literal in "}" |
| GoWalk.FieldListText | go-walk.go:186-199 | "" exactly for a nil list with omitempty; every other text is parenthesised |
| GoWalk.NodePlaceholder | go-walk.go:284-286 | the placeholder line of an unknown node ends in a newline |
| GoWalk.StmtText | go-walk.go:255-287 | every statement's text ends in a newline |
| GoWalk.StmtsText | go-walk.go:258-260 | the text of a non-empty statement list ends in a newline |
| GoWalk.SpecText | go-walk.go:234-242 | every spec line ends in a newline |
| GoWalk.SpecsText | go-walk.go:246-248 | the text of a non-empty spec list ends in a newline |
| GoWalk.DeclText | go-walk.go:244-253 | every declaration's text ends in a newline |
| GoWalk.ParseExprList | go-walk.go:178-184 | the append loop computes the joined list |
| GoWalk.ParseFieldList | go-walk.go:186-199 | the append loop computes the parenthesised list, or "" / "()" for nil |
| GoWalk.ParseNamesLoop | go-walk.go:201-209 | the append loop computes the names joined by ", " |
| GoWalk.GoPrinter.constructor | go-walk.go:308 | level 0, nothing written |
| GoWalk.GoPrinter.UpdateLevel | go-walk.go:41-43 | the level moves by delta; the output is kept |
| GoWalk.GoPrinter.Indent | go-walk.go:45-47 | exactly 2·level blanks |
| GoWalk.GoPrinter.Write | go-walk.go:245 | the walker's own prints append to standard output |
| GoWalk.GoPrinter.PrintLevel | go-walk.go:49-51 | appends the indentation and the values joined by blanks |
| GoWalk.GoPrinter.PrintPackage | go-walk.go:53-55 | the package line |
| GoWalk.GoPrinter.PrintImport | go-walk.go:57-59 | the import line |
| GoWalk.GoPrinter.PrintType | go-walk.go:61-63 | the type line |
| GoWalk.GoPrinter.PrintValue | go-walk.go:65-74 | "vtype names", then " typedef" and " = value" only when present, then a newline |
| GoWalk.GoWalker.Visit | go-walk.go:219-291 | nil does nothing; every node's text is written and the level ends where it started; the walker is returned exactly for kinds without a case |
| GoWalk.GoWalker.VisitFile | go-walk.go:228-232 | the package line, then the declarations |
| GoWalk.GoWalker.VisitDecls | go-walk.go:230-232 | each declaration in order |
| GoWalk.GoWalker.VisitDecl | go-walk.go:244-253 | a declaration's text; a bad declaration gets the placeholder and returns the walker |
| GoWalk.GoWalker.VisitGenDecl | go-walk.go:244-248 | a blank line, then each spec with the declaration as parent |
| GoWalk.GoWalker.VisitSpecs | go-walk.go:246-248 | each spec in order, using the declaration's keyword |
| GoWalk.GoWalker.VisitFuncDecl | go-walk.go:250-253 | a blank line, the func header, then the body |
| GoWalk.GoWalker.VisitSpec | go-walk.go:234-242 | import, type or value line; a value spec takes its keyword from the parent GenDecl |
| GoWalk.GoWalker.VisitStmt | go-walk.go:255-287 | the statement's text at the current level, with the level restored; the walker is returned exactly for kinds without a case |
| GoWalk.GoWalker.VisitBlock | go-walk.go:255-262 | "{", the statements one level deeper (UP), the level back (DOWN), then "}" |
| GoWalk.GoWalker.VisitStmts | go-walk.go:258-260 | the statements in order |
| GoWalk.GoWalker.VisitIf | go-walk.go:264-270 | the if header, the body, and "else " with the else branch when there is one |
| GoWalk.GoWalker.VisitElse | go-walk.go:267-270 | nothing without an else; "else " and the branch with one |
| GoWalkProps.ExprTextsAt | go-walk.go:178-184 | the i-th rendered element is the i-th expression's text |
| GoWalkProps.ExprListAppend | go-walk.go:178-184 | an empty list gives ""; one element gives its text; one more element adds ", " and its text at the end |
| GoWalkProps.FieldTextsAt | go-walk.go:189-191 | each field is names, a blank and its type, so an unnamed field starts with a blank |
| GoWalkProps.FieldListParens | go-walk.go:186-199 | a present list is always parenthesised; nil is "()" unless omitempty; "" exactly for nil with omitempty |
| GoWalkProps.FuncTypeDoubleParens | go-walk.go:130-131 | a function type always starts "((", because its already parenthesised parameters are wrapped again |
| GoWalkProps.ExprPlaceholderShape | go-walk.go:173-174 | an unhandled expression kind renders as "[[[ … ]]]" |
| GoWalkProps.BlockIndent | go-walk.go:255-262 | a block of expression statements at level L is "{", then one line per expression indented for L+1, then "} " indented for L |
| GoWalkProps.ExprStmtLines | go-walk.go:258-260 | the statements of a list are written in order, each expression statement as its own indented line |
| GoWalkProps.ValueSpecParts | go-walk.go:65-74 | a value spec without type or value is "vtype names" and a newline; with a value it ends " = value" and a newline |

## Left out

- Parsing and file access are not modelled. This covers `WalkFile` and `parser.ParseFile` (walker/walker.go:30-40) and `main` with its argument handling (go-walk.go:293-311). The syntax tree is an input datatype.
- The nodes of `ast.Walk` are modelled only as the kinds the walkers handle, plus one catch-all kind per category.
- Real I/O is not modelled:
  - the `io.Writer` of CPrinter is the string `out`, and `SetWriter` is not modelled;
  - standard output of GoPrinter is the string `out`;
  - what walker.go's `Flush` prints is the string `out`.
- `IsSameLine` is a plain read of the flag and has no member of its own.
- The `%#v` structural dumps of the placeholders are reduced to "&ast.Kind{...}". Go's reflection output for the node's fields is not modelled.
- printer/printer.go is not part of this model. The constants COMMA, SEMI, NL, COLON, NONE, UP and DOWN, and the types BlockType, FieldType, Pair and the CHAN_* directions, take the values the printer's output relies on.
- The walker of walker/walker.go drives an abstract printer: a function gives the text of each printer call at a level. Its calls do not match CPrinter's signatures (walker/walker.go:68 and 84 against printer/cprinter.go:100 and 175), so the two are not linked.
- Go panics become preconditions instead of behaviour:
  - a nil context in FormatIdent, PrintStmt("defer"), PrintReturn, PrintBlockStart and PrintFunc;
  - PopContext on an empty stack;
  - a receiver without a blank;
  - FormatMakeAsWritten's `n[2:]` on a one-character remainder;
  - the GenDecl type assertion of a ValueSpec;
  - a negative indentation level.
- CFormat.FillTemplate models `fmt.Sprintf` only for one "%s" slot. Go's "%!(EXTRA …)" note for a template without a slot is not modelled.
- GoStrings.TrimSpace: the ASCII white space and the Latin-1 characters U+0085 and U+00A0 are trimmed, as unicode.IsSpace does; the other Unicode space characters (U+1680, U+2000 to U+200A, U+2028, U+2029, U+202F, U+205F, U+3000) are not, because the model has no Unicode tables.
- GoWalk.GoWalker.VisitFuncDecl: a function declaration without a body is not modelled. go-walk.go would pass a typed nil *ast.BlockStmt to Visit and fail on it.
- Walker.GoWalker.Visit: follows the corrected capture of Findings row 3 (Walker.GoWalker.BufferVisitStmt). A capture nested inside another capture renders as BufferVisitStmt gives it, not as walker/walker.go:185-191 does. Such a capture happens for the statements of a function literal's body, and for a function literal inside an init. As written, such a nested capture returns the whole pending buffer and leaves it in place; Walker.GoWalker.BufferVisitAsWritten and WalkerProps.NestedCaptureDuplicates model that.
- Walker.GoWalker.VisitStmt: the same nested-capture gap as Visit. Inside a function literal's body, the statement text uses the corrected capture.
- Walker.GoWalker.VisitIfStmt: the same nested-capture gap as Visit. Inside a function literal's body, walker/walker.go:93 returns the literal's whole pending text, even for a nil init; the model gives the init's own text, or "" for none.
- Walker.GoWalker.VisitForStmt: the same nested-capture gap for the init and post captures of walker/walker.go:103.
- Walker.GoWalker.VisitSwitchStmt: the same nested-capture gap for the init capture of walker/walker.go:108.
- Walker.GoWalker.VisitTypeSwitchStmt: the same nested-capture gap for the init and assign captures of walker/walker.go:113.
- Walker.GoWalker.BufferVisit: a nil statement captures "" whatever the flush flag is. As written, with flushing already off, walker/walker.go:185-191 returns the trimmed pending buffer instead.
- Walker.GoWalker.ParseExpr: the same nested-capture gap as Visit, for a function literal inside a captured init.
- Walker.GoWalker.ParseCompoundExpr: a function literal's body inside a captured init is rendered with the corrected capture, not with the capture of walker/walker.go:187-191.
- Walker.GoWalker.VisitFuncDecl: a function declaration without a body (an external function) is not modelled either; walker/walker.go:75-81 visits `n.Body` unconditionally, and the model's FuncDecl always has one.
- CFormat.FormatLiteral: requires a raw string literal to have at least its two backticks. printer/cprinter.go:381 slices `lit[1:len(lit)-1]` and would panic on a shorter one, which the Go scanner never produces.
- Goroutines and channels appear only as rendered text. No concurrency is modelled.
- Integer counters (iota, deferred) are unbounded naturals. Go's int overflow is out of reach for any real input.
- PrinterProps.MakeSlice, MakeMap, MakeSliceOfMap, MakeChanUnbuffered, MakeChanBuffered and MakeAgrees: the corrected FormatMake is proved for well-nested type texts (CFormat.WellNested: brackets balance and no comma stands outside them). The types the walker renders from Go types have this shape, but no lemma derives it from the walker's output.

## Findings

| source | as written | input that shows it | evidently intended | confidence | as-written member | corrected member |
|---|---|---|---|---|---|---|
| printer/cprinter.go:380 | a quote inside a raw string is replaced by two backslashes and the quote | the raw string `a"b` gives `"a\\"b"`, a C literal that ends after `a\` | the C literal holds the raw string's content (one backslash before the quote) | not executed | PrinterProps.RawQuoteAsWritten | CFormat.FormatLiteral |
| printer/cprinter.go:379-382 | a backslash inside a raw string is copied as it is | the raw string `a\nb` (a backslash, then n) gives `"a\nb"`, which C reads as a, a newline, b; a raw `\d+` gives `"\d+"`, an unknown C escape | every backslash is doubled, so the C literal holds the raw string's content | not executed | PrinterProps.RawBackslashAsWritten | CFormat.FormatLiteral |
| walker/walker.go:187-191 | with flushing already off, BufferVisit returns the whole buffer and does not reset it | an if statement whose init holds a function literal: the literal's body is captured inside the init's capture, and the enclosing capture takes it a second time (buffer "a", statement text "b" gives "ab", and "ab" is left in the buffer); a nil statement does the same: BufferVisit(nil) with "a " pending returns "a" and leaves "a " in the buffer (Walker.GoWalker.BufferVisitAsWritten with `o` = None) | the capture returns only the statement's text and leaves the buffer as it was | not executed | WalkerProps.NestedCaptureDuplicates | Walker.GoWalker.BufferVisitStmt |
| printer/cprinter.go:656-659 | every argument text starting with "map<" takes the map branch | make([]map[string]int, 3), whose arguments are `map<std::string, int>[], 3`, gives `map<std::string, int>()` instead of an array of three maps | a slice of maps is constructed as a slice | not executed | PrinterProps.SliceOfMapAsWritten | PrinterProps.MakeSliceOfMap |
| printer/cprinter.go:665-672 | the slice type is taken to end at the last ']' of the arguments | make([]int, a[0]), whose arguments are `int[], a[0]`, gives `int[], a[0]` back instead of `int[a[0]]`; the length's ']' is the last one | the length is split off where the type ends, after its "[]" | not executed | PrinterProps.SliceIndexAsWritten | PrinterProps.MakeSlice |
