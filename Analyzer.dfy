/** The counting part of `process_file`: the number of characters, the
    case-insensitive occurrence count of each of the 26 letters, their total
    and the relative frequencies. */
module Analyzer {
  import opened Text
  import opened Wrappers

  /** `string.ascii_lowercase` as a sequence: the letters a..z in order. */
  const Alphabet: string := "abcdefghijklmnopqrstuvwxyz"

  /** Letter `i` of the alphabet is the `i`-th code point after 'a'. */
  lemma AlphabetAt(i: nat)
    requires i < 26
    ensures |Alphabet| == 26 && Alphabet[i] as int == 'a' as int + i
  {
  }

  lemma InAlphabet(x: char)
    ensures x in Alphabet <==> 'a' <= x <= 'z'
  {
    if 'a' <= x <= 'z' {
      AlphabetAt(x as int - 'a' as int);
    }
  }

  predicate Distinct(letters: string) {
    forall i, j :: 0 <= i < j < |letters| ==> letters[i] != letters[j]
  }

  // ---------------------------------------------------------------------
  // The character count: the total length of the lines, terminators included

  function Characters(data: seq<string>): nat {
    if data == [] then 0 else Characters(data[..|data| - 1]) + |data[|data| - 1]|
  }

  /** The lines joined into one text. */
  function Concat(data: seq<string>): string {
    if data == [] then [] else Concat(data[..|data| - 1]) + data[|data| - 1]
  }

  /** `characters` is the length of the whole (possibly filtered) text,
      line terminators included. */
  lemma {:induction false} CharactersIsTextLength(data: seq<string>)
    ensures Characters(data) == |Concat(data)|
  {
    if data != [] {
      CharactersIsTextLength(data[..|data| - 1]);
    }
  }

  // ---------------------------------------------------------------------
  // occurrences

  /** The inner loop's result: the occurrences of `c` in the lowered lines,
      added up over all lines. */
  function LetterCount(data: seq<string>, c: char): nat {
    if data == [] then 0
    else LetterCount(data[..|data| - 1], c) + Count(Lower(data[|data| - 1]), c)
  }

  /** The count of each of `letters` in turn. */
  function Counts(data: seq<string>, letters: string): (r: seq<nat>)
    ensures |r| == |letters|
    ensures forall i :: 0 <= i < |letters| ==> r[i] == LetterCount(data, letters[i])
  {
    if letters == [] then []
    else Counts(data, letters[..|letters| - 1]) + [LetterCount(data, letters[|letters| - 1])]
  }

  /** The `occurrences` list: 26 entries in a..z order, entry `i` the count
      of letter `i` over all lowered lines. */
  function Occurrences(data: seq<string>): (r: seq<nat>)
    ensures |r| == 26
    ensures forall i :: 0 <= i < 26 ==> r[i] == LetterCount(data, Alphabet[i])
  {
    Counts(data, Alphabet)
  }

  /** Case-insensitivity: the count of a letter counts both of its cases
      (and the two non-ASCII code points that lowercase to it). */
  lemma {:induction false} LetterCountFolds(data: seq<string>, l: char)
    requires 'a' <= l <= 'z'
    ensures LetterCount(data, l) == FoldedLetterCount(data, l)
  {
    if data != [] {
      LetterCountFolds(data[..|data| - 1], l);
      LowerCount(data[|data| - 1], l);
    }
  }

  function FoldedLetterCount(data: seq<string>, l: char): nat
    requires 'a' <= l <= 'z'
  {
    if data == [] then 0
    else FoldedLetterCount(data[..|data| - 1], l) + CountFolded(data[|data| - 1], l)
  }

  /** The nested loop of the program: for each letter in turn, add up its
      count over all lines and append the total. */
  method CountLetters(data: seq<string>, alphabet: string) returns (occurrences: seq<nat>)
    ensures occurrences == Counts(data, alphabet)
  {
    occurrences := [];
    for k := 0 to |alphabet|
      invariant occurrences == Counts(data, alphabet[..k])
    {
      var letter := alphabet[k];
      var n: nat := 0;
      for j := 0 to |data|
        invariant n == LetterCount(data[..j], letter)
      {
        assert LetterCount(data[..j + 1], letter) == n + Count(Lower(data[j]), letter) by {
          assert data[..j + 1][..j] == data[..j];
        }
        n := n + Count(Lower(data[j]), letter);
      }
      assert occurrences + [n] == Counts(data, alphabet[..k + 1]) by {
        assert data[..|data|] == data;
        assert alphabet[..k + 1][..k] == alphabet[..k];
      }
      occurrences := occurrences + [n];
    }
    assert alphabet[..|alphabet|] == alphabet;
  }

  /** The loop run over `string.ascii_lowercase`. */
  method CountOccurrences(data: seq<string>) returns (occurrences: seq<nat>)
    ensures occurrences == Occurrences(data)
  {
    occurrences := CountLetters(data, Alphabet);
  }

  // ---------------------------------------------------------------------
  // The total of the 26 letter counts

  function Sum(xs: seq<nat>): nat {
    if xs == [] then 0 else Sum(xs[..|xs| - 1]) + xs[|xs| - 1]
  }

  lemma {:induction false} ElementAtMostSum(xs: seq<nat>, i: nat)
    requires i < |xs|
    ensures xs[i] <= Sum(xs)
  {
    if i < |xs| - 1 {
      ElementAtMostSum(xs[..|xs| - 1], i);
    }
  }

  /** A code point whose lowercase form contains one of a..z. */
  predicate IsLetter(c: char) {
    ('a' <= c <= 'z') || ('A' <= c <= 'Z') || c == '\U{130}' || c == '\U{212A}'
  }

  /** Number of letters in one line. */
  function Letters(s: string): (n: nat)
    ensures n <= |s|
  {
    if s == [] then 0 else Letters(s[..|s| - 1]) + (if IsLetter(s[|s| - 1]) then 1 else 0)
  }

  /** Number of letters in the whole text. */
  function LetterTotal(data: seq<string>): (n: nat)
    ensures n <= Characters(data)
  {
    if data == [] then 0 else LetterTotal(data[..|data| - 1]) + Letters(data[|data| - 1])
  }

  /** Number of positions of `s` holding one of `letters`. */
  function CountAny(s: string, letters: string): nat {
    if s == [] then 0 else CountAny(s[..|s| - 1], letters) + (if s[|s| - 1] in letters then 1 else 0)
  }

  function LinesCountAny(data: seq<string>, letters: string): nat {
    if data == [] then 0
    else LinesCountAny(data[..|data| - 1], letters) + CountAny(Lower(data[|data| - 1]), letters)
  }

  lemma {:induction false} CountAnyExtend(s: string, letters: string, l: char)
    requires l !in letters
    ensures CountAny(s, letters + [l]) == CountAny(s, letters) + Count(s, l)
  {
    if s != [] {
      CountAnyExtend(s[..|s| - 1], letters, l);
    }
  }

  lemma {:induction false} CountAnyConcat(a: string, b: string, letters: string)
    ensures CountAny(a + b, letters) == CountAny(a, letters) + CountAny(b, letters)
  {
    if b != [] {
      var b' := b[..|b| - 1];
      assert (a + b)[..|a + b| - 1] == a + b';
      CountAnyConcat(a, b', letters);
    } else {
      assert a + b == a;
    }
  }

  lemma {:induction false} LinesCountAnyExtend(data: seq<string>, letters: string, l: char)
    requires l !in letters
    ensures LinesCountAny(data, letters + [l]) == LinesCountAny(data, letters) + LetterCount(data, l)
  {
    if data != [] {
      LinesCountAnyExtend(data[..|data| - 1], letters, l);
      CountAnyExtend(Lower(data[|data| - 1]), letters, l);
    }
  }

  /** Summing the per-letter counts of distinct letters counts, over all
      lowered lines, the positions holding any of them. */
  lemma {:induction false} SumCounts(data: seq<string>, letters: string)
    requires Distinct(letters)
    ensures Sum(Counts(data, letters)) == LinesCountAny(data, letters)
  {
    if letters == [] {
      LinesCountAnyEmpty(data);
    } else {
      var n := |letters| - 1;
      var init, l := letters[..n], letters[n];
      assert Distinct(init);
      assert l !in init by {
        forall k | 0 <= k < n ensures init[k] != l {
          assert init[k] == letters[k];
        }
      }
      SumCounts(data, init);
      assert letters == init + [l];
      LinesCountAnyExtend(data, init, l);
      var c := Counts(data, letters);
      assert c == Counts(data, init) + [LetterCount(data, l)];
      assert c[..n] == Counts(data, init);
    }
  }

  lemma {:induction false} LinesCountAnyEmpty(data: seq<string>)
    ensures LinesCountAny(data, []) == 0
  {
    if data != [] {
      LinesCountAnyEmpty(data[..|data| - 1]);
      CountAnyEmpty(Lower(data[|data| - 1]));
    }
  }

  lemma {:induction false} CountAnyEmpty(s: string)
    ensures CountAny(s, []) == 0
  {
    if s != [] {
      CountAnyEmpty(s[..|s| - 1]);
    }
  }

  lemma LowerCharLetters(c: char)
    ensures CountAny(LowerChar(c), Alphabet) == if IsLetter(c) then 1 else 0
  {
    var r := LowerChar(c);
    InAlphabet(r[0]);
    assert CountAny([r[0]], Alphabet) == if r[0] in Alphabet then 1 else 0 by {
      assert [r[0]][..0] == [];
    }
    if |r| == 2 {
      InAlphabet(r[1]);
      assert r[..1] == [r[0]];
      assert CountAny(r, Alphabet) == CountAny([r[0]], Alphabet);
    } else {
      assert r == [r[0]];
    }
  }

  /** In one line, the lowered letters a..z are the letters of the line. */
  lemma {:induction false} LineLetters(s: string)
    ensures CountAny(Lower(s), Alphabet) == Letters(s)
  {
    if s != [] {
      var init := s[..|s| - 1];
      LineLetters(init);
      CountAnyConcat(Lower(init), LowerChar(s[|s| - 1]), Alphabet);
      LowerCharLetters(s[|s| - 1]);
    }
  }

  lemma {:induction false} TextLetters(data: seq<string>)
    ensures LinesCountAny(data, Alphabet) == LetterTotal(data)
  {
    if data != [] {
      TextLetters(data[..|data| - 1]);
      LineLetters(data[|data| - 1]);
    }
  }

  /** `total_occurrences` is the number of letters in the text, so it never
      exceeds `characters`. */
  lemma TotalOccurrences(data: seq<string>)
    ensures Sum(Occurrences(data)) == LetterTotal(data)
    ensures Sum(Occurrences(data)) <= Characters(data)
  {
    assert Distinct(Alphabet) by {
      forall i, j | 0 <= i < j < 26 ensures Alphabet[i] != Alphabet[j] {
        AlphabetAt(i);
        AlphabetAt(j);
      }
    }
    SumCounts(data, Alphabet);
    TextLetters(data);
  }

  // ---------------------------------------------------------------------
  // Relative frequencies: each letter count divided by the total

  function SumReal(xs: seq<real>): real {
    if xs == [] then 0.0 else SumReal(xs[..|xs| - 1]) + xs[|xs| - 1]
  }

  /** Each count divided by `total`. */
  function Scale(xs: seq<nat>, total: nat): (r: seq<real>)
    requires total > 0
    ensures |r| == |xs|
    ensures forall i :: 0 <= i < |xs| ==> r[i] == xs[i] as real / total as real
  {
    if xs == [] then []
    else Scale(xs[..|xs| - 1], total) + [xs[|xs| - 1] as real / total as real]
  }

  /** The relative frequencies; `None` when there are no letters at all,
      where the program's division yields NaN for every letter. */
  function Frequencies(occurrences: seq<nat>): (r: Option<seq<real>>)
    ensures r.None? <==> Sum(occurrences) == 0
    ensures r.Some? ==> |r.value| == |occurrences|
    ensures r.Some? ==> forall i :: 0 <= i < |occurrences| ==>
      r.value[i] == occurrences[i] as real / Sum(occurrences) as real
  {
    var total := Sum(occurrences);
    if total == 0 then None else Some(Scale(occurrences, total))
  }

  lemma {:induction false} ScaleSum(xs: seq<nat>, total: nat)
    requires total > 0
    ensures SumReal(Scale(xs, total)) == Sum(xs) as real / total as real
  {
    if xs != [] {
      var n := |xs| - 1;
      var init := xs[..n];
      ScaleSum(init, total);
      var r := Scale(xs, total);
      assert r[..n] == Scale(init, total);
      assert SumReal(r) == SumReal(Scale(init, total)) + r[n];
      AddQuotients(Sum(init) as real, xs[n] as real, total as real);
    }
  }

  lemma AddQuotients(a: real, b: real, t: real)
    requires t != 0.0
    ensures a / t + b / t == (a + b) / t
  {
  }

  /** A quotient of a number by a larger positive one lies in [0, 1]. */
  lemma UnitQuotient(q: real, x: real, t: real)
    requires t > 0.0 && 0.0 <= x <= t && q == x / t
    ensures 0.0 <= q <= 1.0
    ensures x == t ==> q == 1.0
  {
    assert q * t == x;
    assert (1.0 - q) * t == t - x;
    if x == t {
      assert (q - 1.0) * t == 0.0;
    }
  }

  /** The frequencies lie in [0, 1] and add up to one. */
  lemma FrequenciesSumToOne(occurrences: seq<nat>)
    requires Sum(occurrences) > 0
    ensures Frequencies(occurrences).Some?
    ensures SumReal(Frequencies(occurrences).value) == 1.0
    ensures forall i :: 0 <= i < |occurrences| ==> 0.0 <= Frequencies(occurrences).value[i] <= 1.0
  {
    var total := Sum(occurrences);
    var f := Scale(occurrences, total);
    assert Frequencies(occurrences) == Some(f);
    ScaleSum(occurrences, total);
    UnitQuotient(SumReal(f), total as real, total as real);
    forall i | 0 <= i < |occurrences|
      ensures 0.0 <= f[i] <= 1.0
    {
      ElementAtMostSum(occurrences, i);
      UnitQuotient(f[i], occurrences[i] as real, total as real);
    }
  }
}
