/** The Python string operations the program relies on, and the whitespace
    test `strip()` and `split()` apply (Python's `str.isspace` set):
    `str.lower`, `str.count` with a one-character argument, the `in`
    substring test, `str.strip()` and `str.split()` (both without
    arguments). Strings are sequences of Unicode scalar values, as Python's
    `str` is a sequence of code points. */
module Text {

  /** Python's `str.isspace` on one code point: the characters CPython's
      `str.strip()` and `str.split()` treat as whitespace. */
  predicate IsSpace(c: char) {
    || ('\t' <= c <= '\r')
    || ('\U{1C}' <= c <= ' ')
    || c == '\U{85}' || c == '\U{A0}' || c == '\U{1680}'
    || ('\U{2000}' <= c <= '\U{200A}')
    || c == '\U{2028}' || c == '\U{2029}' || c == '\U{202F}'
    || c == '\U{205F}' || c == '\U{3000}'
  }

  predicate AllSpace(s: string) {
    forall i :: 0 <= i < |s| ==> IsSpace(s[i])
  }

  // ---------------------------------------------------------------------
  // str.count(c) for a one-character c

  /** The number of positions of `s` that hold `c`. */
  function Count(s: string, c: char): (n: nat)
    ensures n <= |s|
    ensures n == 0 <==> c !in s
  {
    if s == [] then 0
    else Count(s[..|s| - 1], c) + (if s[|s| - 1] == c then 1 else 0)
  }

  ghost function Positions(s: string, c: char): set<nat> {
    set i: nat | i < |s| && s[i] == c
  }

  /** `Count` is the number of indices holding the character. */
  lemma {:induction false} CountIsPositions(s: string, c: char)
    ensures Count(s, c) == |Positions(s, c)|
  {
    if s != [] {
      var t := s[..|s| - 1];
      CountIsPositions(t, c);
      if s[|s| - 1] == c {
        assert Positions(s, c) == Positions(t, c) + {|t|};
      } else {
        assert Positions(s, c) == Positions(t, c);
      }
    }
  }

  lemma {:induction false} CountConcat(a: string, b: string, c: char)
    ensures Count(a + b, c) == Count(a, c) + Count(b, c)
  {
    if b != [] {
      var b' := b[..|b| - 1];
      assert (a + b)[..|a + b| - 1] == a + b';
      CountConcat(a, b', c);
    } else {
      assert a + b == a;
    }
  }

  // ---------------------------------------------------------------------
  // The substring test `p in s`

  /** `p` occurs in `s` starting at index `i`. */
  ghost predicate OccursAt(s: string, p: string, i: int) {
    0 <= i && i + |p| <= |s| && s[i..i + |p|] == p
  }

  /** Python's `p in s` on strings. */
  function Contains(s: string, p: string): bool
    decreases |s|
  {
    if |p| > |s| then false
    else if s[..|p|] == p then true
    else Contains(s[1..], p)
  }

  /** `Contains` holds exactly when the pattern occurs at some index. */
  lemma {:induction false} ContainsIff(s: string, p: string)
    ensures Contains(s, p) <==> exists i :: OccursAt(s, p, i)
    decreases |s|
  {
    if |p| > |s| {
      forall i | OccursAt(s, p, i) ensures false { }
    } else if s[..|p|] == p {
      assert OccursAt(s, p, 0);
    } else {
      ContainsIff(s[1..], p);
      if Contains(s[1..], p) {
        var i :| OccursAt(s[1..], p, i);
        assert s[i + 1..i + 1 + |p|] == s[1..][i..i + |p|];
        assert OccursAt(s, p, i + 1);
      } else {
        forall i | OccursAt(s, p, i) ensures false {
          if i > 0 {
            assert s[1..][i - 1..i - 1 + |p|] == s[i..i + |p|];
            assert OccursAt(s[1..], p, i - 1);
          }
        }
      }
    }
  }

  // ---------------------------------------------------------------------
  // str.lower()

  /** Python's lowercase mapping of one code point, for every code point
      whose lowercase form contains one of the letters a..z: the ASCII
      capitals, U+0130 (lowercased to "i" followed by U+0307) and the Kelvin
      sign U+212A (lowercased to "k"). Every other code point is kept. */
  function LowerChar(c: char): string {
    if 'A' <= c <= 'Z' then [(c as int + 32) as char]
    else if c == '\U{130}' then ['i', '\U{307}']
    else if c == '\U{212A}' then ['k']
    else [c]
  }

  function Lower(s: string): string {
    if s == [] then [] else Lower(s[..|s| - 1]) + LowerChar(s[|s| - 1])
  }

  /** `c` is the letter `l` under case folding: `l` itself, its capital, or
      one of the two non-ASCII code points that lowercase to a letter. */
  predicate FoldsTo(c: char, l: char)
    requires 'a' <= l <= 'z'
  {
    || c == l
    || c as int == l as int - 32
    || (l == 'i' && c == '\U{130}')
    || (l == 'k' && c == '\U{212A}')
  }

  /** Number of positions of `s` holding some case variant of `l`. */
  function CountFolded(s: string, l: char): (n: nat)
    requires 'a' <= l <= 'z'
    ensures n <= |s|
  {
    if s == [] then 0
    else CountFolded(s[..|s| - 1], l) + (if FoldsTo(s[|s| - 1], l) then 1 else 0)
  }

  lemma LowerCharCount(c: char, l: char)
    requires 'a' <= l <= 'z'
    ensures Count(LowerChar(c), l) == if FoldsTo(c, l) then 1 else 0
  {
    var r := LowerChar(c);
    if |r| == 2 {
      assert r[..1] == ['i'];
    } else {
      assert r[..0] == [];
    }
  }

  /** Counting a lowercase letter in the lowered string counts every case
      variant of it in the original: `"AbC"` and `"abc"` give equal counts. */
  lemma {:induction false} LowerCount(s: string, l: char)
    requires 'a' <= l <= 'z'
    ensures Count(Lower(s), l) == CountFolded(s, l)
  {
    if s != [] {
      var t := s[..|s| - 1];
      LowerCount(t, l);
      CountConcat(Lower(t), LowerChar(s[|s| - 1]), l);
      LowerCharCount(s[|s| - 1], l);
    }
  }

  /** Strings that agree position by position up to case lower to the
      same string. */
  lemma {:induction false} LowerCaseBlind(s: string, t: string)
    requires |s| == |t|
    requires forall i :: 0 <= i < |s| ==> LowerChar(s[i]) == LowerChar(t[i])
    ensures Lower(s) == Lower(t)
  {
    if s != [] {
      LowerCaseBlind(s[..|s| - 1], t[..|t| - 1]);
    }
  }

  lemma CaseInsensitiveExample()
    ensures forall l :: Count(Lower("AbC"), l) == Count(Lower("abc"), l)
  {
    LowerCaseBlind("AbC", "abc");
  }

  // ---------------------------------------------------------------------
  // str.strip()

  /** Drops the leading whitespace. */
  function TrimLeft(s: string): (r: string)
    ensures |r| <= |s| && r == s[|s| - |r|..]
    ensures forall i :: 0 <= i < |s| - |r| ==> IsSpace(s[i])
    ensures r != [] ==> !IsSpace(r[0])
  {
    if s != [] && IsSpace(s[0]) then TrimLeft(s[1..]) else s
  }

  /** Drops the trailing whitespace. */
  function TrimRight(s: string): (r: string)
    ensures |r| <= |s| && r == s[..|r|]
    ensures forall i :: |r| <= i < |s| ==> IsSpace(s[i])
    ensures r != [] ==> !IsSpace(r[|r| - 1])
  {
    if s != [] && IsSpace(s[|s| - 1]) then TrimRight(s[..|s| - 1]) else s
  }

  /** Python's `s.strip()`. */
  function Strip(s: string): string {
    TrimRight(TrimLeft(s))
  }

  /** A line strips to the empty string exactly when all of it is
      whitespace (which includes the empty line). */
  lemma StripEmptyIff(s: string)
    ensures Strip(s) == [] <==> AllSpace(s)
  {
    var t := TrimLeft(s);
    if t != [] {
      assert !IsSpace(t[0]);
      assert s[|s| - |t|] == t[0];
    }
  }

  // ---------------------------------------------------------------------
  // str.split()

  /** A non-empty run of non-whitespace characters. */
  predicate IsWord(w: string) {
    w != [] && forall i :: 0 <= i < |w| ==> !IsSpace(w[i])
  }

  /** Length of the run of non-whitespace characters that starts `s`. */
  function WordLength(s: string): (n: nat)
    ensures n <= |s|
    ensures forall i :: 0 <= i < n ==> !IsSpace(s[i])
    ensures n < |s| ==> IsSpace(s[n])
  {
    if s != [] && !IsSpace(s[0]) then 1 + WordLength(s[1..]) else 0
  }

  /** Python's `s.split()`: the maximal runs of non-whitespace characters,
      in order. Each token is non-empty and holds no whitespace. */
  function Split(s: string): (r: seq<string>)
    ensures forall k :: 0 <= k < |r| ==> IsWord(r[k])
    decreases |s|
  {
    var t := TrimLeft(s);
    if t == [] then []
    else
      var n := WordLength(t);
      WordPrefix(t);
      var r := Split(t[n..]);
      ConsWords(t[..n], r);
      [t[..n]] + r
  }

  /** A line that does not start with whitespace starts with a word. */
  lemma WordPrefix(t: string)
    requires t != [] && !IsSpace(t[0])
    ensures 0 < WordLength(t) && IsWord(t[..WordLength(t)])
  {
  }

  lemma ConsWords(w: string, r: seq<string>)
    requires IsWord(w) && forall k :: 0 <= k < |r| ==> IsWord(r[k])
    ensures forall k :: 0 <= k < |[w] + r| ==> IsWord(([w] + r)[k])
  {
    forall k | 0 <= k < |[w] + r|
      ensures IsWord(([w] + r)[k])
    {
      if k > 0 {
        assert ([w] + r)[k] == r[k - 1];
      }
    }
  }

  /** An independent count of the words of a line: the number of
      non-whitespace characters that start the line or follow whitespace.
      `afterSpace` says whether the character before `s` was whitespace (or
      `s` begins the line). */
  function WordStarts(s: string, afterSpace: bool): nat {
    if s == [] then 0
    else (if afterSpace && !IsSpace(s[0]) then 1 else 0) + WordStarts(s[1..], IsSpace(s[0]))
  }

  lemma {:induction false} WordStartsSkipSpace(s: string)
    ensures WordStarts(s, true) == WordStarts(TrimLeft(s), true)
  {
    if s != [] && IsSpace(s[0]) {
      WordStartsSkipSpace(s[1..]);
    }
  }

  lemma {:induction false} WordStartsSkipWord(s: string)
    ensures WordStarts(s, false) == WordStarts(s[WordLength(s)..], true)
  {
    if s != [] && !IsSpace(s[0]) {
      WordStartsSkipWord(s[1..]);
      assert s[WordLength(s)..] == s[1..][WordLength(s[1..])..];
    }
  }

  /** `len(s.split())` is the number of word starts of the line. */
  lemma {:induction false} SplitCount(s: string)
    ensures |Split(s)| == WordStarts(s, true)
    decreases |s|
  {
    var t := TrimLeft(s);
    WordStartsSkipSpace(s);
    if t != [] {
      var n := WordLength(t);
      SplitCount(t[n..]);
      WordStartsSkipWord(t[1..]);
      assert t[1..][WordLength(t[1..])..] == t[n..];
    }
  }

  /** A leading whitespace character does not change the split. */
  lemma SplitSpace(c: char, rest: string)
    requires IsSpace(c)
    ensures Split([c] + rest) == Split(rest)
  {
    assert ([c] + rest)[1..] == rest;
  }

  lemma {:induction false} WordLengthOfWord(w: string, rest: string)
    requires forall i :: 0 <= i < |w| ==> !IsSpace(w[i])
    requires rest == [] || IsSpace(rest[0])
    ensures WordLength(w + rest) == |w|
  {
    if w == [] {
      assert w + rest == rest;
    } else {
      assert (w + rest)[1..] == w[1..] + rest;
      WordLengthOfWord(w[1..], rest);
    }
  }

  /** A word followed by whitespace (or by nothing) is the first token. */
  lemma SplitWord(w: string, rest: string)
    requires IsWord(w)
    requires rest == [] || IsSpace(rest[0])
    ensures Split(w + rest) == [w] + Split(rest)
  {
    var s := w + rest;
    assert TrimLeft(s) == s;
    WordLengthOfWord(w, rest);
    assert s[..|w|] == w && s[|w|..] == rest;
  }

  /** A line holding only a line terminator has no tokens. */
  lemma SplitNewline()
    ensures Split("\n") == []
  {
    assert "\n" == ['\n'] + [];
    SplitSpace('\n', []);
  }

  /** A word ending the line is the line's only token. */
  lemma SplitLastWord(b: string)
    requires IsWord(b)
    ensures Split(b + "\n") == [b]
  {
    SplitNewline();
    SplitWord(b, "\n");
  }

  lemma SplitSpacedLastWord(b: string)
    requires IsWord(b)
    ensures Split([' '] + (b + "\n")) == [b]
  {
    SplitLastWord(b);
    SplitSpace(' ', b + "\n");
  }

  /** `"hello world\n".split()` in general form: two words separated by
      one space and terminated by a newline give exactly those two tokens. */
  lemma SplitTwoWords(a: string, b: string)
    requires IsWord(a) && IsWord(b)
    ensures Split(a + " " + b + "\n") == [a, b]
  {
    TwoWordsShape(a, b);
    SplitSpacedLastWord(b);
    SplitWord(a, [' '] + (b + "\n"));
  }

  lemma TwoWordsShape(a: string, b: string)
    ensures a + " " + b + "\n" == a + ([' '] + (b + "\n"))
  {
    assert a + " " + b == a + ([' '] + b);
  }

  lemma ThreeWordsShape(a: string, b: string, c: string)
    ensures a + " " + b + " " + c + "\n" == a + ([' '] + (b + " " + c + "\n"))
  {
    assert a + " " + b == a + ([' '] + b);
    assert a + " " + b + " " == a + ([' '] + b + " ");
    assert a + " " + b + " " + c == a + ([' '] + b + " " + c);
  }

  /** `"foo bar baz\n".split()` in general form. */
  lemma SplitThreeWords(a: string, b: string, c: string)
    requires IsWord(a) && IsWord(b) && IsWord(c)
    ensures Split(a + " " + b + " " + c + "\n") == [a, b, c]
  {
    var rest := b + " " + c + "\n";
    ThreeWordsShape(a, b, c);
    SplitTwoWords(b, c);
    SplitSpace(' ', rest);
    SplitWord(a, [' '] + rest);
  }
}
