/** The preamble/license filter of `process_file`: a Boolean `book` starts
    false, every line containing the marker flips it and is dropped, and any
    other line is kept exactly while `book` is true. */
module Preamble {
  import opened Text
  import opened Wrappers

  /** The filter's state after some prefix of the lines: whether it is
      inside the book, and the lines kept so far. */
  datatype FilterState = FilterState(inBook: bool, kept: seq<string>)

  /** One step of the two-state machine on one line. */
  function Step(st: FilterState, line: string, marker: string): FilterState {
    if Contains(line, marker) then FilterState(!st.inBook, st.kept)
    else if st.inBook then FilterState(true, st.kept + [line])
    else st
  }

  /** The machine run over all of `lines` from the initial state. */
  function Run(lines: seq<string>, marker: string): FilterState {
    if lines == [] then FilterState(false, [])
    else Step(Run(lines[..|lines| - 1], marker), lines[|lines| - 1], marker)
  }

  /** The lines the filter keeps. */
  function StripPreamble(lines: seq<string>, marker: string): seq<string> {
    Run(lines, marker).kept
  }

  /** The filter as the program runs it: one pass over the lines, flipping
      `book` on marker lines and appending the others while `book` holds. */
  method FilterLines(data: seq<string>, marker: string) returns (newData: seq<string>)
    ensures newData == StripPreamble(data, marker)
  {
    var book := false;
    newData := [];
    for i := 0 to |data|
      invariant FilterState(book, newData) == Run(data[..i], marker)
    {
      assert data[..i + 1][..i] == data[..i];
      var line := data[i];
      if Contains(line, marker) {
        book := !book;
        continue;
      }
      if book {
        newData := newData + [line];
      }
    }
    assert data[..|data|] == data;
  }

  /** The lines the analysis runs on: filtered when a non-empty marker is
      given, all of them otherwise (`if skip:` tests Python truthiness). */
  function Book(data: seq<string>, skip: Option<string>): seq<string> {
    if skip.Some? && skip.value != "" then StripPreamble(data, skip.value) else data
  }

  /** `if skip:` — the filter runs only for a marker that is present and
      non-empty; otherwise the lines pass through unchanged. */
  method SelectBook(data: seq<string>, skip: Option<string>) returns (book: seq<string>)
    ensures skip == None || skip == Some("") ==> book == data
    ensures skip.Some? && skip.value != "" ==> book == StripPreamble(data, skip.value)
    ensures book == Book(data, skip)
  {
    if skip.Some? && skip.value != "" {
      book := FilterLines(data, skip.value);
    } else {
      book := data;
    }
  }

  // ---------------------------------------------------------------------
  // An independent description of what is kept

  /** The number of lines that contain the marker. */
  function Markers(lines: seq<string>, marker: string): (n: nat)
    ensures n <= |lines|
  {
    if lines == [] then 0
    else Markers(lines[..|lines| - 1], marker) + (if Contains(lines[|lines| - 1], marker) then 1 else 0)
  }

  /** Line `j` is kept: it does not contain the marker and an odd number of
      marker lines come before it. */
  predicate KeptAt(lines: seq<string>, marker: string, j: nat)
    requires j < |lines|
  {
    !Contains(lines[j], marker) && Markers(lines[..j], marker) % 2 == 1
  }

  /** The elements of `lines` whose flag in `keep` is set, in order. */
  function Select(lines: seq<string>, keep: seq<bool>): (r: seq<string>)
    requires |keep| == |lines|
    ensures |r| <= |lines|
  {
    if lines == [] then []
    else
      var n := |lines| - 1;
      Select(lines[..n], keep[..n]) + (if keep[n] then [lines[n]] else [])
  }

  function KeepMask(lines: seq<string>, marker: string): (m: seq<bool>)
    ensures |m| == |lines|
  {
    seq(|lines|, j requires 0 <= j < |lines| => KeptAt(lines, marker, j))
  }

  /** After any prefix, the toggle is on exactly when an odd number of marker
      lines have been read. */
  lemma {:induction false} RunInBook(lines: seq<string>, marker: string)
    ensures Run(lines, marker).inBook <==> Markers(lines, marker) % 2 == 1
  {
    if lines != [] {
      RunInBook(lines[..|lines| - 1], marker);
    }
  }

  /** The filter keeps exactly the non-marker lines preceded by an odd number
      of marker lines, in their original order. */
  lemma {:induction false} StripPreambleKeeps(lines: seq<string>, marker: string)
    ensures StripPreamble(lines, marker) == Select(lines, KeepMask(lines, marker))
  {
    if lines != [] {
      var n := |lines| - 1;
      var init := lines[..n];
      StripPreambleKeeps(init, marker);
      RunInBook(init, marker);
      assert KeepMask(lines, marker)[..n] == KeepMask(init, marker) by {
        forall j | 0 <= j < n
          ensures KeepMask(lines, marker)[j] == KeepMask(init, marker)[j]
        {
          assert lines[..j] == init[..j];
        }
      }
    }
  }

  /** No line containing the marker is ever kept. */
  lemma {:induction false} NoMarkerKept(lines: seq<string>, marker: string)
    ensures forall k :: 0 <= k < |StripPreamble(lines, marker)| ==> !Contains(StripPreamble(lines, marker)[k], marker)
  {
    if lines != [] {
      var init := lines[..|lines| - 1];
      NoMarkerKept(init, marker);
      var before := StripPreamble(init, marker);
      var after := StripPreamble(lines, marker);
      assert after == before || (after == before + [lines[|lines| - 1]] && !Contains(lines[|lines| - 1], marker));
      forall k | 0 <= k < |after| ensures !Contains(after[k], marker) {
        if k < |before| {
          assert after[k] == before[k];
          assert !Contains(StripPreamble(init, marker)[k], marker);
        }
      }
    }
  }

  /** If the marker never occurs the toggle never turns on and nothing is
      kept. */
  lemma {:induction false} NoMarkerNothingKept(lines: seq<string>, marker: string)
    requires Markers(lines, marker) == 0
    ensures StripPreamble(lines, marker) == []
    ensures !Run(lines, marker).inBook
  {
    if lines != [] {
      NoMarkerNothingKept(lines[..|lines| - 1], marker);
    }
  }

  // ---------------------------------------------------------------------
  // Order-preserving subsequence

  /** `idx` lists strictly increasing positions of `t` at which the
      elements of `s` are found. */
  ghost predicate Embeds(idx: seq<nat>, s: seq<string>, t: seq<string>) {
    && |idx| == |s|
    && (forall k :: 0 <= k < |idx| ==> idx[k] < |t| && t[idx[k]] == s[k])
    && (forall k1, k2 :: 0 <= k1 < k2 < |idx| ==> idx[k1] < idx[k2])
  }

  ghost predicate IsSubsequence(s: seq<string>, t: seq<string>) {
    exists idx :: Embeds(idx, s, t)
  }

  /** The positions whose flag is set, in increasing order. */
  function SetPositions(keep: seq<bool>): (idx: seq<nat>)
    ensures forall k :: 0 <= k < |idx| ==> idx[k] < |keep|
  {
    if keep == [] then []
    else
      var n := |keep| - 1;
      SetPositions(keep[..n]) + (if keep[n] then [n] else [])
  }

  lemma {:induction false} SelectEmbeds(lines: seq<string>, keep: seq<bool>)
    requires |keep| == |lines|
    ensures Embeds(SetPositions(keep), Select(lines, keep), lines)
  {
    if lines != [] {
      var n := |lines| - 1;
      SelectEmbeds(lines[..n], keep[..n]);
    }
  }

  /** The kept lines are an order-preserving subsequence of the input. */
  lemma StripPreambleIsSubsequence(lines: seq<string>, marker: string)
    ensures IsSubsequence(StripPreamble(lines, marker), lines)
    ensures |StripPreamble(lines, marker)| <= |lines|
  {
    StripPreambleKeeps(lines, marker);
    SelectEmbeds(lines, KeepMask(lines, marker));
  }

  /** Running the machine over one more line is one more step. */
  lemma RunSnoc(lines: seq<string>, line: string, marker: string)
    ensures Run(lines + [line], marker) == Step(Run(lines, marker), line, marker)
  {
    assert (lines + [line])[..|lines|] == lines;
  }

  /** The worked example: with marker `m`, the lines of
      `[x, m, a, b, m, c]` between the first and second marker are kept; a
      third marker turns the toggle on again and a fourth turns it off. */
  lemma ToggleExample(x: string, a: string, b: string, c: string, d: string, m: string)
    requires !Contains(x, m) && !Contains(a, m) && !Contains(b, m)
    requires !Contains(c, m) && !Contains(d, m)
    ensures StripPreamble([x, m, a, b, m, c], m) == [a, b]
    ensures StripPreamble([x, m, a, b, m, c, m, d], m) == [a, b, d]
    ensures StripPreamble([x, m, a, b, m, c, m, d, m], m) == [a, b, d]
  {
    assert Contains(m, m) by { assert m[..|m|] == m; }
    var l1 := [x];
    assert Run(l1, m) == FilterState(false, []) by {
      RunSnoc([], x, m);
      assert [] + [x] == l1;
    }
    var l2 := l1 + [m];
    assert Run(l2, m) == FilterState(true, []) by { RunSnoc(l1, m, m); }
    var l3 := l2 + [a];
    assert Run(l3, m) == FilterState(true, [a]) by { RunSnoc(l2, a, m); }
    var l4 := l3 + [b];
    assert Run(l4, m) == FilterState(true, [a, b]) by { RunSnoc(l3, b, m); }
    var l5 := l4 + [m];
    assert Run(l5, m) == FilterState(false, [a, b]) by { RunSnoc(l4, m, m); }
    var l6 := l5 + [c];
    assert Run(l6, m) == FilterState(false, [a, b]) by { RunSnoc(l5, c, m); }
    var l7 := l6 + [m];
    assert Run(l7, m) == FilterState(true, [a, b]) by { RunSnoc(l6, m, m); }
    var l8 := l7 + [d];
    assert Run(l8, m) == FilterState(true, [a, b, d]) by { RunSnoc(l7, d, m); }
    var l9 := l8 + [m];
    assert Run(l9, m) == FilterState(false, [a, b, d]) by { RunSnoc(l8, m, m); }
    assert l6 == [x, m, a, b, m, c];
    assert l8 == [x, m, a, b, m, c, m, d];
    assert l9 == [x, m, a, b, m, c, m, d, m];
  }
}
