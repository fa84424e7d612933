/** The optional book statistics of `process_file`: spaces, words, lines
    and empty lines. */
module BookStats {
  import opened Text
  import opened Analyzer

  /** The number of ASCII space characters over all lines; spaces are characters, so
      there are never more of them than `characters`. */
  function Spaces(data: seq<string>): (n: nat)
    ensures n <= Characters(data)
  {
    if data == [] then 0 else Spaces(data[..|data| - 1]) + Count(data[|data| - 1], ' ')
  }

  /** The number of whitespace-separated tokens over all lines. */
  function Words(data: seq<string>): nat {
    if data == [] then 0 else Words(data[..|data| - 1]) + |Split(data[|data| - 1])|
  }

  /** The number of word starts over all lines. */
  function WordStartTotal(data: seq<string>): nat {
    if data == [] then 0 else WordStartTotal(data[..|data| - 1]) + WordStarts(data[|data| - 1], true)
  }

  /** `words` counts, over all lines, the non-whitespace characters that
      begin a line or follow whitespace. */
  lemma {:induction false} WordsAreWordStarts(data: seq<string>)
    ensures Words(data) == WordStartTotal(data)
  {
    if data != [] {
      WordsAreWordStarts(data[..|data| - 1]);
      SplitCount(data[|data| - 1]);
    }
  }

  /** The number of lines made of whitespace only. */
  function BlankLines(data: seq<string>): (n: nat)
    ensures n <= |data|
  {
    if data == [] then 0 else BlankLines(data[..|data| - 1]) + (if AllSpace(data[|data| - 1]) then 1 else 0)
  }

  /** The `skips` loop: count the lines that are empty once their
      surrounding whitespace is stripped. */
  method CountEmptyLines(data: seq<string>) returns (skips: nat)
    ensures skips == BlankLines(data)
  {
    skips := 0;
    for i := 0 to |data|
      invariant skips == BlankLines(data[..i])
    {
      assert data[..i + 1][..i] == data[..i];
      StripEmptyIff(data[i]);
      if Strip(data[i]) == "" {
        skips := skips + 1;
      }
    }
    assert data[..|data|] == data;
  }

  datatype Stats = Stats(spaces: nat, words: nat, lines: nat, emptyLines: nat)

  /** The statistics block, computed on the (possibly filtered) lines. */
  method ComputeStats(data: seq<string>) returns (st: Stats)
    ensures st == Stats(Spaces(data), Words(data), |data|, BlankLines(data))
    ensures st.spaces <= Characters(data) && st.emptyLines <= st.lines
  {
    var spaces := Spaces(data);
    var words := Words(data);
    var lines := |data|;
    var skips := CountEmptyLines(data);
    st := Stats(spaces, words, lines, skips);
  }

  lemma SpacesInTwoWords(a: string, b: string)
    requires IsWord(a) && IsWord(b)
    ensures Count(a + " " + b + "\n", ' ') == 1
  {
    assert ' ' !in a && ' ' !in b;
    CountConcat(a, " ", ' ');
    CountConcat(a + " ", b, ' ');
    CountConcat(a + " " + b, "\n", ' ');
    assert " "[..0] == [] && "\n"[..0] == [];
  }

  lemma SpacesInThreeWords(a: string, b: string, c: string)
    requires IsWord(a) && IsWord(b) && IsWord(c)
    ensures Count(a + " " + b + " " + c + "\n", ' ') == 2
  {
    var rest := b + " " + c + "\n";
    ThreeWordsShape(a, b, c);
    SpacesInTwoWords(b, c);
    assert ' ' !in a;
    CountConcat(a, [' '] + rest, ' ');
    CountConcat([' '], rest, ' ');
    assert [' '][..0] == [];
  }

  lemma NotBlank(a: string, rest: string)
    requires IsWord(a)
    ensures !AllSpace(a + rest)
  {
    assert (a + rest)[0] == a[0];
  }

  /** The document `["hello world\n", "\n", "foo bar baz\n"]` with any five
      words in place of the five of the example. */
  function ExampleDocument(a: string, b: string, c: string, d: string, e: string): seq<string> {
    [a + " " + b + "\n", "\n", c + " " + d + " " + e + "\n"]
  }

  /** The worked example: 3 spaces, 5 words, 3 lines, 1 of them empty. */
  lemma ExampleSpaces(a: string, b: string, c: string, d: string, e: string)
    requires IsWord(a) && IsWord(b) && IsWord(c) && IsWord(d) && IsWord(e)
    ensures Spaces(ExampleDocument(a, b, c, d, e)) == 3
  {
    var data := ExampleDocument(a, b, c, d, e);
    var l1, l2, l3 := data[0], data[1], data[2];
    assert data[..2] == [l1, l2] && [l1, l2][..1] == [l1] && [l1][..0] == [];
    assert Spaces(data) == Count(l1, ' ') + Count(l2, ' ') + Count(l3, ' ') by {
      assert Spaces([l1]) == Count(l1, ' ');
      assert Spaces([l1, l2]) == Spaces([l1]) + Count(l2, ' ');
    }
    SpacesInTwoWords(a, b);
    SpacesInThreeWords(c, d, e);
    assert l2[..0] == [];
  }

  lemma WordsOfThree(x: string, y: string, z: string)
    ensures Words([x, y, z]) == |Split(x)| + |Split(y)| + |Split(z)|
  {
    var data := [x, y, z];
    assert data[..2] == [x, y] && [x, y][..1] == [x] && [x][..0] == [];
    assert Words([x]) == |Split(x)|;
    assert Words([x, y]) == Words([x]) + |Split(y)|;
  }

  lemma ExampleWords(a: string, b: string, c: string, d: string, e: string)
    requires IsWord(a) && IsWord(b) && IsWord(c) && IsWord(d) && IsWord(e)
    ensures Words(ExampleDocument(a, b, c, d, e)) == 5
  {
    var data := ExampleDocument(a, b, c, d, e);
    WordsOfThree(data[0], data[1], data[2]);
    SplitTwoWords(a, b);
    SplitNewline();
    SplitThreeWords(c, d, e);
  }

  lemma ExampleBlankLines(a: string, b: string, c: string, d: string, e: string)
    requires IsWord(a) && IsWord(b) && IsWord(c) && IsWord(d) && IsWord(e)
    ensures BlankLines(ExampleDocument(a, b, c, d, e)) == 1
  {
    var data := ExampleDocument(a, b, c, d, e);
    var l1, l2, l3 := data[0], data[1], data[2];
    assert data[..2] == [l1, l2] && [l1, l2][..1] == [l1] && [l1][..0] == [];
    assert l1 == a + (" " + b + "\n");
    NotBlank(a, " " + b + "\n");
    assert l3 == c + (" " + d + " " + e + "\n");
    NotBlank(c, " " + d + " " + e + "\n");
    assert AllSpace(l2);
    assert BlankLines([l1]) == 0;
    assert BlankLines([l1, l2]) == 1;
  }

  /** The worked example: 3 spaces, 5 words, 3 lines, 1 of them empty. */
  lemma StatsExample(a: string, b: string, c: string, d: string, e: string)
    requires IsWord(a) && IsWord(b) && IsWord(c) && IsWord(d) && IsWord(e)
    ensures var data := ExampleDocument(a, b, c, d, e);
      Spaces(data) == 3 && Words(data) == 5 && |data| == 3 && BlankLines(data) == 1
  {
    ExampleSpaces(a, b, c, d, e);
    ExampleWords(a, b, c, d, e);
    ExampleBlankLines(a, b, c, d, e);
  }
}
