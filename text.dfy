/**
 * The two string operations the header parser relies on: Python's argument-less
 * `str.split()`, which cuts a string at runs of whitespace and drops empty pieces, and
 * `str.lower()` restricted to the letters that can matter for the scheme word.
 */
module Text {

  /** The characters Python's `str.split()` treats as whitespace. */
  predicate IsSpace(c: char) {
    var n := c as int;
    (9 <= n <= 13) || (0x1C <= n <= 0x20) || n == 0x85 || n == 0xA0 || n == 0x1680
    || (0x2000 <= n <= 0x200A) || n == 0x2028 || n == 0x2029 || n == 0x202F
    || n == 0x205F || n == 0x3000
  }

  predicate NoSpace(s: string) {
    forall i :: 0 <= i < |s| ==> !IsSpace(s[i])
  }

  predicate AllSpace(s: string) {
    forall i :: 0 <= i < |s| ==> IsSpace(s[i])
  }

  /** A non-empty run of non-whitespace characters: one piece of a split. */
  predicate IsWord(s: string) {
    s != [] && NoSpace(s)
  }

  /** The longest prefix of `s` free of whitespace. */
  function WordPrefix(s: string): (w: string)
    ensures w <= s
    ensures NoSpace(w)
    ensures |w| == |s| || IsSpace(s[|w|])
  {
    if s == [] || IsSpace(s[0]) then [] else [s[0]] + WordPrefix(s[1..])
  }

  /** Python's `s.split()`: the maximal whitespace-free runs of `s`, left to right. */
  function Split(s: string): (parts: seq<string>)
    ensures forall p :: p in parts ==> IsWord(p)
    ensures parts == [] <==> AllSpace(s)
    decreases |s|
  {
    if s == [] then []
    else if IsSpace(s[0]) then Split(s[1..])
    else
      var w := WordPrefix(s);
      [w] + Split(s[|w|..])
  }

  /** The characters of `s` that are not whitespace, in order. */
  function Visible(s: string): string {
    if s == [] then [] else (if IsSpace(s[0]) then [] else [s[0]]) + Visible(s[1..])
  }

  function Concat(parts: seq<string>): string {
    if parts == [] then [] else parts[0] + Concat(parts[1..])
  }

  function LowerChar(c: char): char {
    if 'A' <= c <= 'Z' then (c as int + 32) as char else c
  }

  /** `str.lower()` on the ASCII letters; other characters are kept. */
  function Lower(s: string): string {
    seq(|s|, i requires 0 <= i < |s| => LowerChar(s[i]))
  }

  lemma {:induction false} VisibleAppend(a: string, b: string)
    ensures Visible(a + b) == Visible(a) + Visible(b)
  {
    if a == [] {
      assert a + b == b;
    } else {
      assert (a + b)[1..] == a[1..] + b;
      VisibleAppend(a[1..], b);
    }
  }

  lemma {:induction false} VisibleOfWord(w: string)
    requires NoSpace(w)
    ensures Visible(w) == w
  {
    if w != [] {
      VisibleOfWord(w[1..]);
    }
  }

  /** Splitting loses exactly the whitespace: gluing the pieces back gives every other character. */
  lemma {:induction false} SplitKeepsVisible(s: string)
    ensures Concat(Split(s)) == Visible(s)
    decreases |s|
  {
    if s == [] {
    } else if IsSpace(s[0]) {
      SplitKeepsVisible(s[1..]);
    } else {
      var w := WordPrefix(s);
      var rest := s[|w|..];
      assert s == w + rest;
      SplitKeepsVisible(rest);
      VisibleAppend(w, rest);
      VisibleOfWord(w);
      assert ([w] + Split(rest))[1..] == Split(rest);
    }
  }

  /** Leading whitespace does not change the split. */
  lemma {:induction false} SplitSkipsSpace(ws: string, s: string)
    requires AllSpace(ws)
    ensures Split(ws + s) == Split(s)
  {
    if ws != [] {
      assert (ws + s)[1..] == ws[1..] + s;
      SplitSkipsSpace(ws[1..], s);
    } else {
      assert ws + s == s;
    }
  }

  lemma {:induction false} WordPrefixOf(w: string, rest: string)
    requires NoSpace(w)
    requires rest == [] || IsSpace(rest[0])
    ensures WordPrefix(w + rest) == w
  {
    if w == [] {
      assert w + rest == rest;
    } else {
      assert (w + rest)[1..] == w[1..] + rest;
      WordPrefixOf(w[1..], rest);
    }
  }

  /** A word followed by whitespace (or nothing) is split off as one piece. */
  lemma SplitWord(w: string, rest: string)
    requires IsWord(w)
    requires rest == [] || IsSpace(rest[0])
    ensures Split(w + rest) == [w] + Split(rest)
  {
    WordPrefixOf(w, rest);
    assert (w + rest)[|w|..] == rest;
  }

  /** Whitespace, then a word ended by whitespace (or nothing): the word is the first piece. */
  lemma SplitSpacedWord(ws: string, w: string, rest: string)
    requires AllSpace(ws) && IsWord(w)
    requires rest == [] || IsSpace(rest[0])
    ensures Split(ws + (w + rest)) == [w] + Split(rest)
  {
    SplitSkipsSpace(ws, w + rest);
    SplitWord(w, rest);
  }

  /** Two words separated and surrounded by any whitespace split into exactly those two words. */
  lemma SplitTwoWords(ws1: string, a: string, ws2: string, b: string, ws3: string)
    requires AllSpace(ws1) && AllSpace(ws2) && AllSpace(ws3) && ws2 != []
    requires IsWord(a) && IsWord(b)
    ensures Split(ws1 + a + ws2 + b + ws3) == [a, b]
  {
    var second := ws2 + (b + ws3);
    SplitSpacedWord(ws2, b, ws3);
    assert Split(second) == [b];
    SplitSpacedWord(ws1, a, second);
    Regroup(ws1, a, ws2, b, ws3);
  }

  lemma Regroup(ws1: string, a: string, ws2: string, b: string, ws3: string)
    ensures ws1 + a + ws2 + b + ws3 == ws1 + (a + (ws2 + (b + ws3)))
  {
  }
}
