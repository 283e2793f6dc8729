/**
 * The parts of Go's `strings` and `strconv` packages that the translator
 * relies on, over Dafny strings (`seq<char>`). Each function follows the
 * Go library's documented behaviour for the argument shapes the translator
 * uses; the contracts state what the translator's own code depends on.
 */
module GoStrings {

  datatype Option<+T> = None | Some(value: T)

  /** strings.Join: the parts, in order, with `sep` between consecutive parts. */
  function Join(parts: seq<string>, sep: string): (r: string)
    ensures |parts| == 0 ==> r == ""
    ensures |parts| == 1 ==> r == parts[0]
  {
    if |parts| == 0 then ""
    else if |parts| == 1 then parts[0]
    else Join(parts[..|parts| - 1], sep) + sep + parts[|parts| - 1]
  }

  lemma JoinSnoc(parts: seq<string>, x: string, sep: string)
    requires |parts| > 0
    ensures Join(parts + [x], sep) == Join(parts, sep) + sep + x
  {
    assert (parts + [x])[..|parts|] == parts;
  }

  /** A joined list starts with its first part and ends with its last. */
  lemma {:induction false} JoinEnds(parts: seq<string>, sep: string)
    requires |parts| > 0
    ensures HasPrefix(Join(parts, sep), parts[0])
    ensures HasSuffix(Join(parts, sep), parts[|parts| - 1])
  {
    var j := Join(parts, sep);
    if |parts| > 1 {
      var init := parts[..|parts| - 1];
      JoinEnds(init, sep);
      assert init[0] == parts[0];
      assert j == Join(init, sep) + (sep + parts[|parts| - 1]);
      assert j[..|parts[0]|] == Join(init, sep)[..|parts[0]|];
      assert j[|j| - |parts[|parts| - 1]|..] == parts[|parts| - 1];
    }
  }

  /** Parts without commas joined by ", " hold a comma exactly when there are several. */
  lemma JoinComma(parts: seq<string>)
    ensures (forall i :: 0 <= i < |parts| ==> ',' !in parts[i]) ==> (',' in Join(parts, ", ") <==> |parts| > 1)
  {
    if |parts| > 1 {
      var init := Join(parts[..|parts| - 1], ", ");
      var j := init + ", " + parts[|parts| - 1];
      assert j[|init|] == ',';
      assert Join(parts, ", ") == j;
    }
  }

  /** Join of a two-element list. */
  lemma JoinTwo(a: string, b: string, sep: string)
    ensures Join([a, b], sep) == a + sep + b
  {
    assert [a, b][..1] == [a];
  }

  /** Join of a three-element list. */
  lemma JoinThree(a: string, b: string, c: string, sep: string)
    ensures Join([a, b, c], sep) == a + sep + b + sep + c
  {
    assert [a, b, c][..2] == [a, b];
    JoinTwo(a, b, sep);
  }

  /** Join of two non-empty lists splits at the separator between them. */
  lemma {:induction false} JoinConcat(a: seq<string>, b: seq<string>, sep: string)
    requires |a| > 0 && |b| > 0
    ensures Join(a + b, sep) == Join(a, sep) + sep + Join(b, sep)
    decreases |b|
  {
    if |b| == 1 {
      JoinSnoc(a, b[0], sep);
      assert a + b == a + [b[0]];
    } else {
      var b' := b[..|b| - 1];
      var x := b[|b| - 1];
      assert b == b' + [x];
      assert a + b == (a + b') + [x];
      JoinConcat(a, b', sep);
      JoinSnoc(a + b', x, sep);
      JoinSnoc(b', x, sep);
    }
  }

  /** strings.Repeat for a non-negative count (Go panics on a negative one). */
  function Repeat(s: string, n: nat): string
  {
    if n == 0 then "" else Repeat(s, n - 1) + s
  }

  /** `Repeat("  ", n)` is exactly 2n blanks. */
  lemma {:induction false} IndentIsBlanks(n: nat)
    ensures |Repeat("  ", n)| == 2 * n
    ensures forall i :: 0 <= i < 2 * n ==> Repeat("  ", n)[i] == ' '
  {
    if n > 0 {
      IndentIsBlanks(n - 1);
    }
  }

  /** strings.HasPrefix */
  predicate HasPrefix(s: string, prefix: string)
  {
    |prefix| <= |s| && s[..|prefix|] == prefix
  }

  /** A prefix stays a prefix when text is appended. */
  lemma PrefixConcat(a: string, b: string, p: string)
    requires HasPrefix(a, p)
    ensures HasPrefix(a + b, p)
  {
    assert (a + b)[..|p|] == a[..|p|];
  }

  /** Prepending the same text to a string and to its prefix keeps it a prefix. */
  lemma PrefixPrepend(x: string, s: string, p: string)
    requires HasPrefix(s, p)
    ensures HasPrefix(x + s, x + p)
  {
    assert (x + s)[..|x + p|] == x + s[..|p|];
  }

  /** strings.HasSuffix */
  predicate HasSuffix(s: string, suffix: string)
  {
    |suffix| <= |s| && s[|s| - |suffix|..] == suffix
  }

  /** `sub` occurs in `s` starting at index `i`. */
  predicate OccursAt(s: string, sub: string, i: int)
  {
    0 <= i && i + |sub| <= |s| && s[i..i + |sub|] == sub
  }

  /** strings.Index: the first index at which `sub` occurs at or after `from`, or -1. */
  function IndexFrom(s: string, sub: string, from: nat): (r: int)
    requires from <= |s|
    ensures r == -1 || (from <= r && OccursAt(s, sub, r))
    ensures r == -1 ==> forall j :: from <= j <= |s| - |sub| ==> !OccursAt(s, sub, j)
    ensures r != -1 ==> forall j :: from <= j < r ==> !OccursAt(s, sub, j)
    decreases |s| - from
  {
    if from + |sub| > |s| then -1
    else if s[from..from + |sub|] == sub then from
    else IndexFrom(s, sub, from + 1)
  }

  function Index(s: string, sub: string): int
  {
    IndexFrom(s, sub, 0)
  }

  /** strings.Contains */
  predicate Contains(s: string, sub: string)
  {
    Index(s, sub) >= 0
  }

  lemma ContainsWitness(s: string, sub: string, i: int)
    requires OccursAt(s, sub, i)
    ensures Contains(s, sub)
  {
  }

  lemma ContainsChar(s: string, c: char)
    ensures Contains(s, [c]) <==> c in s
  {
    if c in s {
      var i :| 0 <= i < |s| && s[i] == c;
      assert s[i..i + 1] == [c];
      ContainsWitness(s, [c], i);
    }
    if Contains(s, [c]) {
      var i := Index(s, [c]);
      assert s[i..i + 1] == [c];
      assert s[i] == c;
    }
  }

  /** strings.IndexByte: the first index of `c`, or -1. */
  function IndexByte(s: string, c: char): (r: int)
    ensures -1 <= r < |s|
    ensures r == -1 <==> c !in s
    ensures r >= 0 ==> s[r] == c && c !in s[..r]
  {
    if |s| == 0 then -1
    else if s[0] == c then 0
    else
      var r' := IndexByte(s[1..], c);
      assert r' >= 0 ==> s[1..][..r'] == s[1..r' + 1];
      if r' < 0 then -1 else r' + 1
  }

  /** strings.LastIndex with a one-character pattern: the last index of `c`, or -1. */
  function LastIndexByte(s: string, c: char): (r: int)
    ensures -1 <= r < |s|
    ensures r == -1 <==> c !in s
    ensures r >= 0 ==> s[r] == c && c !in s[r + 1..]
  {
    if |s| == 0 then -1
    else if s[|s| - 1] == c then |s| - 1
    else
      var r' := LastIndexByte(s[..|s| - 1], c);
      assert r' >= 0 ==> s[r' + 1..] == s[..|s| - 1][r' + 1..] + [s[|s| - 1]];
      r'
  }

  /** strings.IndexAny: the first index of any character of `chars`, or -1. */
  function IndexAny(s: string, chars: string): (r: int)
    ensures -1 <= r < |s|
    ensures r >= 0 ==> s[r] in chars
  {
    if |s| == 0 then -1
    else if s[0] in chars then 0
    else
      var r' := IndexAny(s[1..], chars);
      if r' < 0 then -1 else r' + 1
  }

  /** No character before the one IndexAny finds, or none at all when it finds nothing, is in `chars`. */
  lemma {:induction false} IndexAnyFirst(s: string, chars: string)
    ensures forall j :: 0 <= j < |s| && (IndexAny(s, chars) == -1 || j < IndexAny(s, chars)) ==> s[j] !in chars
  {
    if |s| > 0 && s[0] !in chars {
      IndexAnyFirst(s[1..], chars);
      assert forall j :: 1 <= j < |s| ==> s[j] == s[1..][j - 1];
    }
  }

  /** strings.TrimRight: drop every trailing character that belongs to `cutset`. */
  function TrimRight(s: string, cutset: string): (r: string)
    ensures HasPrefix(s, r)
    ensures |r| > 0 ==> r[|r| - 1] !in cutset
  {
    if |s| > 0 && s[|s| - 1] in cutset then TrimRight(s[..|s| - 1], cutset) else s
  }

  /** What TrimRight drops is made of characters of `cutset` only. */
  lemma {:induction false} TrimRightDropped(s: string, cutset: string)
    ensures forall i :: |TrimRight(s, cutset)| <= i < |s| ==> s[i] in cutset
  {
    if |s| > 0 && s[|s| - 1] in cutset {
      TrimRightDropped(s[..|s| - 1], cutset);
    }
  }

  /** strings.TrimLeft: drop every leading character that belongs to `cutset`. */
  function TrimLeft(s: string, cutset: string): (r: string)
    ensures HasSuffix(s, r)
    ensures |r| > 0 ==> r[0] !in cutset
  {
    if |s| > 0 && s[0] in cutset then TrimLeft(s[1..], cutset) else s
  }

  /** What TrimLeft drops is made of characters of `cutset` only. */
  lemma {:induction false} TrimLeftDropped(s: string, cutset: string)
    ensures forall i :: 0 <= i < |s| - |TrimLeft(s, cutset)| ==> s[i] in cutset
  {
    if |s| > 0 && s[0] in cutset {
      TrimLeftDropped(s[1..], cutset);
    }
  }

  /** The white space recognised by strings.TrimSpace within Latin-1. */
  const Space: string := " \t\n\U{000B}\U{000C}\r\U{0085}\U{00A0}"

  /** strings.TrimSpace: no white space left at either end, and nothing else removed. */
  function TrimSpace(s: string): (r: string)
    ensures |r| > 0 ==> r[0] !in Space && r[|r| - 1] !in Space
  {
    var t := TrimRight(s, Space);
    var r := TrimLeft(t, Space);
    assert |r| > 0 ==> r[|r| - 1] == t[|t| - 1];
    r
  }

  /** TrimSpace only removes: its result is a piece of its argument. */
  lemma TrimSpaceInside(s: string)
    ensures exists i :: OccursAt(s, TrimSpace(s), i)
  {
    var t := TrimRight(s, Space);
    var r := TrimLeft(t, Space);
    assert TrimSpace(s) == r;
    assert s[|t| - |r|..|t|] == t[|t| - |r|..];
    assert OccursAt(s, r, |t| - |r|);
  }

  /** Text that already has no white space at its ends is left alone. */
  lemma TrimSpaceTrimmed(s: string)
    requires |s| > 0 ==> s[0] !in Space && s[|s| - 1] !in Space
    ensures TrimSpace(s) == s
  {
  }

  /** strings.Replace(s, string(c), rep, -1): every `c` becomes `rep`. */
  function ReplaceChar(s: string, c: char, rep: string): (r: string)
    ensures c !in rep ==> c !in r
    ensures c !in s ==> r == s
  {
    if |s| == 0 then ""
    else (if s[0] == c then rep else [s[0]]) + ReplaceChar(s[1..], c, rep)
  }

  /** strings.SplitN(s, " ", 2) when `s` holds a blank: the text before and after the first blank. */
  function CutSpace(s: string): (parts: (string, string))
    requires ' ' in s
    ensures parts.0 + " " + parts.1 == s
    ensures ' ' !in parts.0
  {
    var i := IndexByte(s, ' ');
    assert s == s[..i] + " " + s[i + 1..];
    (s[..i], s[i + 1..])
  }

  predicate IsDigit(c: char)
  {
    '0' <= c <= '9'
  }

  function DigitValue(c: char): nat
    requires IsDigit(c)
  {
    c as int - '0' as int
  }

  /** strconv.Itoa for a non-negative number: its decimal digits, no leading zero. */
  function Itoa(n: nat): (r: string)
    ensures |r| > 0 && forall i :: 0 <= i < |r| ==> IsDigit(r[i])
    ensures |r| > 1 ==> r[0] != '0'
  {
    var d := ['0' + (n % 10) as char];
    if n < 10 then d else Itoa(n / 10) + d
  }

  /** The value of a string of decimal digits; the inverse of Itoa. */
  function Atoi(s: string): nat
    requires forall i :: 0 <= i < |s| ==> IsDigit(s[i])
  {
    if |s| == 0 then 0 else
      assert IsDigit(s[|s| - 1]);
      10 * Atoi(s[..|s| - 1]) + DigitValue(s[|s| - 1])
  }

  lemma {:induction false} AtoiItoa(n: nat)
    ensures Atoi(Itoa(n)) == n
  {
    if n >= 10 {
      var d := ['0' + (n % 10) as char];
      assert (Itoa(n / 10) + d)[..|Itoa(n / 10) + d| - 1] == Itoa(n / 10);
      AtoiItoa(n / 10);
    }
  }

  /** Distinct numbers print differently, so names built from a counter never collide. */
  lemma ItoaInjective(m: nat, n: nat)
    requires m != n
    ensures Itoa(m) != Itoa(n)
  {
    AtoiItoa(m);
    AtoiItoa(n);
  }

  // ----- proof helpers: regrouping and affixes of concatenations -----

  /** Concatenation regrouped: the steps of a printer that appends piece by piece. */
  lemma Grow(a: string, b: string, c: string)
    ensures a + b + c == a + (b + c)
  {
  }

  /** Concatenation regrouped around a middle pair. */
  lemma Grow3(a: string, b: string, c: string, d: string)
    ensures a + (b + c) + d == a + (b + c + d) == a + (b + (c + d))
  {
  }

  /** A common prefix cancels. */
  lemma CancelPrefix(a: string, b: string, c: string)
    requires a + b == a + c
    ensures b == c
  {
    assert b == (a + b)[|a|..];
    assert c == (a + c)[|a|..];
  }

  /** An indented line followed by one more piece, regrouped behind its indentation. */
  lemma Regroup3(o: string, ind: string, a: string, b: string, c: string)
    ensures o + (ind + a + b) + c == o + ind + (a + b + c)
  {
  }

  /** An indented line followed by two more pieces, regrouped behind its indentation. */
  lemma Regroup4(o: string, ind: string, a: string, b: string, c: string, d: string)
    ensures o + (ind + a + b) + c + d == o + ind + (a + b + c + d)
  {
  }

  /** An indented line followed by four more pieces, regrouped behind its indentation. */
  lemma Regroup6(o: string, ind: string, a: string, b: string, c: string, d: string, e: string, f: string)
    ensures o + (ind + a + b) + c + d + e + f == o + ind + (a + b + c + d + e + f)
  {
  }

  /** What a concatenation `a + b + c` shows of its outer pieces. */
  lemma ThreePieces(a: string, b: string, c: string)
    ensures HasPrefix(a + b + c, a) && HasSuffix(a + b + c, c)
    ensures b == "" ==> a + b + c == a + c
    ensures HasSuffix(b, "::") ==> HasSuffix(a + b + c, "::" + c)
  {
    assert (a + b + c)[..|a|] == a;
    SuffixAfter(a + b, c);
    if HasSuffix(b, "::") {
      SuffixAfter(a, b);
      SuffixJoin(a + b, "::", c);
    }
  }

  /** What a concatenation `a + b` shows of its two pieces. */
  lemma TwoPieces(a: string, b: string)
    ensures HasPrefix(a + b, a) && HasSuffix(a + b, b)
  {
    assert (a + b)[..|a|] == a;
    assert (a + b)[|a|..] == b;
  }

  /** The outer pieces of `a + m + x + y + z`, with the last three read as one suffix. */
  lemma FivePieces(a: string, m: string, x: string, y: string, z: string)
    ensures HasPrefix(a + m + x + y + z, a) && HasSuffix(a + m + x + y + z, x + y + z)
  {
    assert a + m + x + y + z == a + (m + (x + y + z));
    assert a + m + x + y + z == (a + m) + (x + y + z);
    TwoPieces(a, m + (x + y + z));
    TwoPieces(a + m, x + y + z);
  }

  /** A suffix of `b` is a suffix of `a + b`. */
  lemma SuffixExtendLeft(a: string, b: string, s: string)
    requires HasSuffix(b, s)
    ensures HasSuffix(a + b, s)
  {
    assert (a + b)[|a + b| - |s|..] == b[|b| - |s|..];
  }

  lemma SuffixAfter(a: string, b: string)
    ensures HasSuffix(a + b, b)
  {
    assert (a + b)[|a|..] == b;
  }

  lemma SuffixJoin(a: string, s: string, b: string)
    requires HasSuffix(a, s)
    ensures HasSuffix(a + b, s + b)
  {
    assert (a + b)[|a| - |s|..] == a[|a| - |s|..] + b;
  }

  lemma PrefixSelf(a: string)
    ensures HasPrefix(a, a)
  {
  }

  lemma PrefixExtend(x: string, a: string, y: string)
    requires HasPrefix(x, a)
    ensures HasPrefix(x + y, a)
  {
    assert (x + y)[..|a|] == x[..|a|];
  }
}
