/**
 * The handful of Python `str` operations the modelled code relies on:
 * `startswith`, `split(sep)`, `split(sep, 1)`, `rsplit(sep, 1)`, `strip`,
 * `replace` of one character and `join`, written over `seq<char>`.
 */
module Text {

  /**
   * The characters `str.strip()` removes when called without arguments: those
   * for which `str.isspace()` holds.
   */
  const Whitespace: set<char> := {
    '\t', '\n', '\U{0B}', '\U{0C}', '\r', '\U{1C}', '\U{1D}', '\U{1E}', '\U{1F}', ' ',
    '\U{85}', '\U{A0}', '\U{1680}', '\U{2000}', '\U{2001}', '\U{2002}', '\U{2003}', '\U{2004}',
    '\U{2005}', '\U{2006}', '\U{2007}', '\U{2008}', '\U{2009}', '\U{200A}', '\U{2028}', '\U{2029}',
    '\U{202F}', '\U{205F}', '\U{3000}'}

  predicate StartsWith(s: string, prefix: string) {
    |prefix| <= |s| && s[..|prefix|] == prefix
  }

  /** Index of the first `c` in `s`. */
  function IndexOf(s: string, c: char): (i: nat)
    requires c in s
    ensures i < |s| && s[i] == c
    ensures forall j | 0 <= j < i :: s[j] != c
  {
    if s[0] == c then 0 else 1 + IndexOf(s[1..], c)
  }

  /** Index of the last `c` in `s`. */
  function LastIndexOf(s: string, c: char): (i: nat)
    requires c in s
    ensures i < |s| && s[i] == c
    ensures forall j | i < j < |s| :: s[j] != c
  {
    if s[|s| - 1] == c then |s| - 1 else LastIndexOf(s[..|s| - 1], c)
  }

  /** `sep.join(parts)`. */
  function Join(parts: seq<string>, sep: string): string {
    if |parts| == 0 then ""
    else if |parts| == 1 then parts[0]
    else parts[0] + sep + Join(parts[1..], sep)
  }

  /** `s.split(c)` for a one-character separator: never empty. */
  function Split(s: string, c: char): (parts: seq<string>)
    ensures |parts| >= 1
    decreases |s|
  {
    if c !in s then [s]
    else
      var i := IndexOf(s, c);
      [s[..i]] + Split(s[i + 1..], c)
  }

  lemma SplitUnfold(s: string, c: char)
    requires c in s
    ensures Split(s, c) == [s[..IndexOf(s, c)]] + Split(s[IndexOf(s, c) + 1..], c)
  {
  }

  lemma JoinCons(p: string, rest: seq<string>, sep: string)
    requires rest != []
    ensures Join([p] + rest, sep) == p + sep + Join(rest, sep)
  {
    assert ([p] + rest)[1..] == rest;
  }

  /** Joining the pieces of a split with the separator gives back the string. */
  lemma {:induction false} JoinSplit(s: string, c: char)
    ensures Join(Split(s, c), [c]) == s
    decreases |s|
  {
    if c in s {
      var i := IndexOf(s, c);
      SplitUnfold(s, c);
      JoinSplit(s[i + 1..], c);
      JoinCons(s[..i], Split(s[i + 1..], c), [c]);
      assert s == s[..i] + [c] + s[i + 1..];
    }
  }

  /** `s.split(c)` has two pieces exactly when `c` occurs once: the text before it and the text after it. */
  lemma SplitPair(s: string, c: char)
    requires c in s
    ensures |Split(s, c)| == 2 <==> c !in s[IndexOf(s, c) + 1..]
    ensures c !in s[IndexOf(s, c) + 1..] ==> Split(s, c) == [s[..IndexOf(s, c)], s[IndexOf(s, c) + 1..]]
  {
    var rest := s[IndexOf(s, c) + 1..];
    SplitUnfold(s, c);
    if c in rest {
      SplitUnfold(rest, c);
    }
  }

  /** `s.split(c, 1)`: one piece when `c` is absent, else the text around the first `c`. */
  function SplitOnce(s: string, c: char): (parts: seq<string>)
    ensures c !in s ==> parts == [s]
    ensures c in s ==> |parts| == 2 && c !in parts[0] && parts[0] + [c] + parts[1] == s
  {
    if c !in s then [s]
    else
      var i := IndexOf(s, c);
      assert s == s[..i] + [c] + s[i + 1..];
      [s[..i], s[i + 1..]]
  }

  /** `s.rsplit(c, 1)`: one piece when `c` is absent, else the text around the last `c`. */
  function RSplitOnce(s: string, c: char): (parts: seq<string>)
    ensures c !in s ==> parts == [s]
    ensures c in s ==> |parts| == 2 && c !in parts[1] && parts[0] + [c] + parts[1] == s
  {
    if c !in s then [s]
    else
      var i := LastIndexOf(s, c);
      assert s == s[..i] + [c] + s[i + 1..];
      [s[..i], s[i + 1..]]
  }

  lemma {:induction false} IndexOfAppend(a: string, b: string, ch: char)
    requires ch !in a && ch in b
    ensures ch in a + b && IndexOf(a + b, ch) == |a| + IndexOf(b, ch)
  {
    if a != [] {
      assert (a + b)[1..] == a[1..] + b;
      IndexOfAppend(a[1..], b, ch);
    } else {
      assert a + b == b;
    }
  }

  /** The text before the first `c` of `a + b` is `a` when `a` holds no `c` and `b` starts with one. */
  lemma PrefixBeforeFirst(a: string, b: string, c: char)
    requires c !in a && b != [] && b[0] == c
    ensures c in a + b && (a + b)[..IndexOf(a + b, c)] == a
  {
    IndexOfAppend(a, b, c);
    assert (a + b)[..|a|] == a;
  }

  /** Splitting `a + [c] + b` at its last `c` gives back `a` and `b` when `b` holds no `c`. */
  lemma RSplitJoined(a: string, b: string, c: char)
    requires c !in b
    ensures RSplitOnce(a + [c] + b, c) == [a, b]
  {
    var s := a + [c] + b;
    assert s[|a|] == c;
    var i := LastIndexOf(s, c);
    assert i == |a|;
    assert s[..i] == a && s[i + 1..] == b;
  }

  /** Splitting at a first separator after a separator-free `a` peels `a` off. */
  lemma SplitAfter(a: string, b: string, c: char)
    requires c !in a
    ensures Split(a + [c] + b, c) == [a] + Split(b, c)
  {
    var s := a + [c] + b;
    IndexOfAppend(a, [c] + b, c);
    assert s == a + ([c] + b);
    assert s[..|a|] == a && s[|a| + 1..] == b;
  }

  /** Splitting the join of separator-free pieces gives the pieces back. */
  lemma {:induction false} SplitJoin(parts: seq<string>, c: char)
    requires parts != []
    requires forall k | 0 <= k < |parts| :: c !in parts[k]
    ensures Split(Join(parts, [c]), c) == parts
    decreases |parts|
  {
    if |parts| > 1 {
      var rest := parts[1..];
      SplitJoin(rest, c);
      JoinCons(parts[0], rest, [c]);
      assert [parts[0]] + rest == parts;
      SplitAfter(parts[0], Join(rest, [c]), c);
    }
  }

  /** A character in neither the pieces nor the separator is not in their join. */
  lemma {:induction false} NotInJoin(parts: seq<string>, sep: string, c: char)
    requires c !in sep
    requires forall k | 0 <= k < |parts| :: c !in parts[k]
    ensures c !in Join(parts, sep)
    decreases |parts|
  {
    if |parts| > 1 {
      NotInJoin(parts[1..], sep, c);
    }
  }

  /** `s.lstrip(chars)`. */
  function StripLeft(s: string, chars: set<char>): string {
    if s != [] && s[0] in chars then StripLeft(s[1..], chars) else s
  }

  /** `s.rstrip(chars)`. */
  function StripRight(s: string, chars: set<char>): string {
    if s != [] && s[|s| - 1] in chars then StripRight(s[..|s| - 1], chars) else s
  }

  /** `lstrip` removes a prefix made of `chars` and stops at the first character not in `chars`. */
  lemma {:induction false} StripLeftRemovesPrefix(s: string, chars: set<char>)
    ensures var r := StripLeft(s, chars);
      && |r| <= |s| && r == s[|s| - |r|..]
      && (forall k | 0 <= k < |s| - |r| :: s[k] in chars)
      && (r != [] ==> r[0] !in chars)
  {
    if s != [] && s[0] in chars {
      StripLeftRemovesPrefix(s[1..], chars);
    }
  }

  /** `rstrip` removes a suffix made of `chars` and stops at the last character not in `chars`. */
  lemma {:induction false} StripRightRemovesSuffix(s: string, chars: set<char>)
    ensures var r := StripRight(s, chars);
      && |r| <= |s| && r == s[..|r|]
      && (forall k | |r| <= k < |s| :: s[k] in chars)
      && (r != [] ==> r[|r| - 1] !in chars)
  {
    if s != [] && s[|s| - 1] in chars {
      StripRightRemovesSuffix(s[..|s| - 1], chars);
    }
  }

  /** `s.strip(chars)`: no character of `chars` at either end of the result. */
  function Strip(s: string, chars: set<char>): string {
    StripRight(StripLeft(s, chars), chars)
  }

  /** Stripping removes leading padding up to the first character kept. */
  lemma {:induction false} StripLeftPadding(pad: string, x: string, chars: set<char>)
    requires forall k | 0 <= k < |pad| :: pad[k] in chars
    requires x != [] && x[0] !in chars
    ensures StripLeft(pad + x, chars) == x
    decreases |pad|
  {
    if pad != [] {
      assert (pad + x)[1..] == pad[1..] + x;
      StripLeftPadding(pad[1..], x, chars);
    } else {
      assert pad + x == x;
    }
  }

  /** Stripping padded text whose ends are kept gives the text back. */
  lemma StripPadded(pad: string, x: string, chars: set<char>)
    requires forall k | 0 <= k < |pad| :: pad[k] in chars
    requires x != [] && x[0] !in chars && x[|x| - 1] !in chars
    ensures Strip(pad + x, chars) == x
  {
    StripLeftPadding(pad, x, chars);
  }

  /** `s.replace(a, b)` for single characters. */
  function ReplaceChar(s: string, a: char, b: char): (r: string)
    ensures |r| == |s|
    ensures forall k | 0 <= k < |s| :: r[k] == if s[k] == a then b else s[k]
  {
    if s == [] then [] else [if s[0] == a then b else s[0]] + ReplaceChar(s[1..], a, b)
  }

  function DigitChar(d: nat): char
    requires d < 10
  {
    "0123456789"[d]
  }

  /** Python's `str(n)` for an `int`. */
  function NatToString(n: nat): (r: string)
    ensures |r| >= 1
    decreases n
  {
    if n < 10 then [DigitChar(n)] else NatToString(n / 10) + [DigitChar(n % 10)]
  }

  function IntToString(i: int): string {
    if i < 0 then "-" + NatToString(-i) else NatToString(i)
  }
}
