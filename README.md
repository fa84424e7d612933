# Letter frequencies of a book, modelled in Dafny

This project models the core of `process_file`, a command-line "wordcount"
tool. The tool reads a text file as lines. It can drop the preamble and the
license of a book, which are delimited by lines containing a marker. It then
counts the characters and the case-insensitive occurrences of each of the 26
letters a..z, and divides each count by the total to get relative
frequencies. On request it also reports book statistics: spaces, words,
lines and empty lines.

The model takes the file's lines as a `seq<string>`. It returns the report
as a value instead of printing it.

- `Text` models the Python string operations the program uses, and the
  whitespace test `strip()` and `split()` apply (Python's `str.isspace` set):
  `str.lower`, `str.count` of one character, the `in` substring test,
  `str.strip()` and `str.split()`.
- `Preamble` models the marker-toggle filter. The filter's state is a Boolean
  `book` that starts false. A line containing the marker flips `book` and is
  dropped. Any other line is kept only while `book` is true. It is specified
  by a reducer `Run` and implemented by the loop `FilterLines`.
- `Analyzer` models `characters`, the nested loop that builds `occurrences`,
  `total_occurrences` and the frequencies.
- `BookStats` models `spaces`, `words`, `lines` and the `skips` loop that
  counts empty lines.
- `Process` models `process_file` end to end.

Character semantics:
- Whitespace is the set Python's `str.isspace` accepts, which is also what
  `strip()` and `split()` use. That is `\t`..`\r`, U+001C..U+001F, space,
  U+0085, U+00A0, U+1680, U+2000..U+200A, U+2028, U+2029, U+202F, U+205F and
  U+3000. This set is wider than "ASCII space, tab, CR, LF, VT, FF". The code
  calls Python's methods, so the model follows Python here.
- `lower()` is modelled for every code point whose lowercase form contains
  one of a..z. Those are A..Z, U+0130 (lowercased to "i" plus U+0307) and the
  Kelvin sign U+212A (lowercased to "k"). All other code points are left
  unchanged. The source uses only the letter counts of the lowered line, and
  no other code point changes those counts.
- `skip` is an `Option<string>`. `if skip:` is false both for `None` and for
  the empty string, so both pass the lines through unchanged.
- `np.divide(occurrences, 0)` yields NaN for every letter. The model returns
  `None` in that case; otherwise it returns the exact rational quotients as
  `real`s. The program reports nothing special for this case: NumPy yields
  NaN for every letter, with a runtime warning.

The program's help text for `--skip` (Assignment1.py:17) says the argument
signals the end of the preamble and the start of the license section, which
suggests exactly two marker lines. The loop toggles on every marker line, so a
third marker turns the filter on again. The model follows the loop:
`ToggleExample` shows both cases.

## Model

| member | source | states |
|---|---|---|
| `Text.Count` | Assignment1.py:72 | The count of a one-character substring is at most the length of the string, and it is zero exactly when the character does not occur |
| `Text.CountIsPositions` | Assignment1.py:72 | `Count(s, c)` is the number of indices of `s` holding `c` |
| `Text.CountConcat` | Assignment1.py:86 | Counting a character is additive over concatenation |
| `Text.ContainsIff` | Assignment1.py:52 | `skip in line` holds exactly when the marker occurs at some index of the line |
| `Text.LowerCount` | Assignment1.py:72 | Counting a letter in `line.lower()` counts every case variant of that letter in `line` |
| `Text.LowerCaseBlind` | Assignment1.py:72 | Strings that agree position by position up to case lower to the same string |
| `Text.CaseInsensitiveExample` | Assignment1.py:72 | `"AbC"` and `"abc"` give equal counts for every letter |
| `Text.TrimLeft` | Assignment1.py:93 | The result is a suffix of the input, everything dropped is whitespace, and the result does not start with whitespace |
| `Text.TrimRight` | Assignment1.py:93 | The result is a prefix of the input, everything dropped is whitespace, and the result does not end with whitespace |
| `Text.StripEmptyIff` | Assignment1.py:93 | `line.strip() == ''` holds exactly when every character of the line is whitespace |
| `Text.WordLength` | Assignment1.py:87 | The length of the leading word: all of it is non-whitespace and it is followed by whitespace or the end of the line |
| `Text.Split` | Assignment1.py:87 | Every token of `line.split()` is non-empty and holds no whitespace |
| `Text.SplitCount` | Assignment1.py:87 | `len(line.split())` equals the number of non-whitespace characters that begin the line or follow whitespace |
| `Text.SplitSpace` | Assignment1.py:87 | Leading whitespace does not change the split |
| `Text.SplitWord` | Assignment1.py:87 | A word followed by whitespace or by the end of the line is the first token |
| `Text.SplitLastWord` | Assignment1.py:87 | `"w\n".split()` is `[w]` for any word `w` |
| `Text.SplitSpacedLastWord` | Assignment1.py:87 | `" w\n".split()` is `[w]` for any word `w` |
| `Text.ConsWords` | Assignment1.py:87 | Prepending a word to a list of words gives a list of words |
| `Text.SplitTwoWords` | Assignment1.py:87 | `"a b\n".split()` is `[a, b]` for any two words |
| `Text.SplitThreeWords` | Assignment1.py:87 | `"a b c\n".split()` is `[a, b, c]` for any three words |
| `Preamble.FilterLines` | Assignment1.py:48-60 | The toggle loop returns exactly the lines kept by the reducer `Run` over all the input lines |
| `Preamble.SelectBook` | Assignment1.py:46-60 | With no marker or an empty one, the lines pass through unchanged, element for element; otherwise they are the filter's output |
| `Preamble.Markers` | Assignment1.py:52 | There are never more marker lines than lines |
| `Preamble.RunInBook` | Assignment1.py:48-55 | After any prefix of the lines, `book` is true exactly when an odd number of marker lines have been read |
| `Preamble.StripPreambleKeeps` | Assignment1.py:48-58 | The output is exactly the input lines that do not contain the marker and are preceded by an odd number of marker lines, in input order |
| `Preamble.NoMarkerKept` | Assignment1.py:52-55 | No output line contains the marker |
| `Preamble.NoMarkerNothingKept` | Assignment1.py:48-58 | If the marker never occurs, the output is empty and `book` stays false |
| `Preamble.Select` | Assignment1.py:57-58 | Selecting lines by a flag per line gives at most as many lines as the input |
| `Preamble.SetPositions` | Assignment1.py:57-58 | The positions of the set flags all lie within the flag sequence |
| `Preamble.SelectEmbeds` | Assignment1.py:50-58 | The selected lines sit at strictly increasing input positions holding those same lines |
| `Preamble.StripPreambleIsSubsequence` | Assignment1.py:50-58 | The output is an order-preserving subsequence of the input and is no longer than the input |
| `Preamble.RunSnoc` | Assignment1.py:48-58 | Reading one more line advances the filter by exactly one step of the toggle machine |
| `Preamble.ToggleExample` | Assignment1.py:48-58 | For any marker `m` and lines `x, a, b, c, d` that do not contain it, `[x, m, a, b, m, c]` gives `[a, b]`; a third marker before `d` turns the filter on again and adds `d`; a fourth marker after `d` turns it off and adds nothing |
| `Analyzer.AlphabetAt` | Assignment1.py:65 | The alphabet has 26 entries and entry `i` is the `i`-th code point after `a` |
| `Analyzer.InAlphabet` | Assignment1.py:65 | A character is in the alphabet exactly when it lies in a..z |
| `Analyzer.CharactersIsTextLength` | Assignment1.py:63 | `characters` is the length of the whole text, line terminators included |
| `Analyzer.Counts` | Assignment1.py:69-73 | One count per letter, in order, each the letter's total over all lowered lines |
| `Analyzer.Occurrences` | Assignment1.py:65-73 | `occurrences` has 26 entries in a..z order, and entry `i` is the sum over the lines of the count of letter `i` in the lowered line |
| `Analyzer.CountLetters` | Assignment1.py:67-72 | The nested loop builds, for each letter of the alphabet in order, its count summed over the lowered lines |
| `Analyzer.CountOccurrences` | Assignment1.py:65-72 | Run over `string.ascii_lowercase`, the loop builds exactly the 26-entry `occurrences` list |
| `Analyzer.LetterCountFolds` | Assignment1.py:72 | A letter's occurrence count is the number of its case variants over all lines |
| `Analyzer.ElementAtMostSum` | Assignment1.py:77 | No single count exceeds the total |
| `Analyzer.Letters` | Assignment1.py:72 | A line has at most as many letters as characters |
| `Analyzer.LetterTotal` | Assignment1.py:63-77 | The text has at most as many letters as `characters` |
| `Analyzer.SumCounts` | Assignment1.py:69-77 | The sum of the counts of distinct letters is the number of positions in the lowered lines holding one of them |
| `Analyzer.LineLetters` | Assignment1.py:72 | A lowered line has as many a..z positions as the line has letters |
| `Analyzer.TotalOccurrences` | Assignment1.py:77 | `total_occurrences` is the number of letters in the text, so it is at most `characters` |
| `Analyzer.Scale` | Assignment1.py:78 | Each entry is the corresponding count divided by the total |
| `Analyzer.ScaleSum` | Assignment1.py:78 | The sum of the quotients is the sum of the counts divided by the total |
| `Analyzer.Frequencies` | Assignment1.py:78 | The frequencies are undefined exactly when the total is zero; otherwise there is one per count, equal to `occurrences[i] / total` |
| `Analyzer.FrequenciesSumToOne` | Assignment1.py:78 | With a positive total, every frequency lies in [0, 1] and the frequencies add up to exactly one |
| `BookStats.Spaces` | Assignment1.py:86 | `spaces` never exceeds `characters` |
| `BookStats.WordsAreWordStarts` | Assignment1.py:87 | `words` is the number of word starts over all lines |
| `BookStats.BlankLines` | Assignment1.py:89-94 | The empty-line count is at most the line count |
| `BookStats.CountEmptyLines` | Assignment1.py:91-94 | The `skips` loop counts exactly the lines that consist of whitespace only |
| `BookStats.ComputeStats` | Assignment1.py:84-94 | The stats are the space count, the word count, `len(data)` and the empty-line count, with `spaces <= characters` and `skips <= lines` |
| `BookStats.StatsExample` | Assignment1.py:86-94 | With any five words in place of `hello`, `world`, `foo`, `bar` and `baz`, the document `["hello world\n","\n","foo bar baz\n"]` gives spaces=3, words=5, lines=3 and empty lines=1 |
| `Process.ProcessFile` | Assignment1.py:46-99 | The report is the characters, occurrences, total, frequencies and optional stats of the (possibly filtered) lines: 26 counts, total at most characters, frequencies undefined exactly when the total is 0 and summing to 1 otherwise, and stats present exactly when asked for |

## Left out

- Argument parsing (`argparse`, the `__main__` block): command-line glue. `stats` and `skip` become parameters of `ProcessFile`; `plot` is dropped with the chart.
- Opening the file and `readlines`: I/O. The lines are the `data` parameter. File-not-found and UTF-8 decoding errors are not modelled.
- `loguru` logging calls: they only produce log output.
- The `time.time()` elapsed-time measurement: it depends on the wall clock.
- Printing the report: `ProcessFile` returns the values the program prints.
- The matplotlib bar chart: a user-interface side effect.
- `Analyzer.Frequencies`: computes exact rational quotients as `real`, not IEEE floating point. The NaN result for a zero total is `None`.
- `Text.LowerChar`: does not model Python's full Unicode lowercase mapping. Code points whose lowercase form contains none of a..z are left unchanged. The lowered line is only used to count a..z, so no count the program takes is affected.
- Idempotence of the analysis is not stated as a separate lemma: every analysis result is a function of its inputs.
