/** `process_file` without its I/O: the lines of the file are a parameter,
    and the report it prints is returned as a value. */
module Process {
  import opened Wrappers
  import opened Preamble
  import opened Analyzer
  import opened BookStats

  /** What the program reports: the character count, the 26 letter
      occurrence counts in a..z order, their total, the relative
      frequencies (`None` where they are NaN) and, when asked for, the book
      statistics. */
  datatype Report = Report(
    characters: nat,
    occurrences: seq<nat>,
    totalOccurrences: nat,
    frequency: Option<seq<real>>,
    stats: Option<Stats>)

  method ProcessFile(data: seq<string>, stats: bool, skip: Option<string>) returns (r: Report)
    ensures var book := Book(data, skip);
      r == Report(Characters(book), Occurrences(book), Sum(Occurrences(book)),
                  Frequencies(Occurrences(book)),
                  if stats then Some(Stats(Spaces(book), Words(book), |book|, BlankLines(book))) else None)
    ensures |r.occurrences| == 26
    ensures r.totalOccurrences <= r.characters
    ensures r.frequency.None? <==> r.totalOccurrences == 0
    ensures r.frequency.Some? ==> SumReal(r.frequency.value) == 1.0
    ensures r.stats.Some? ==> r.stats.value.spaces <= r.characters && r.stats.value.emptyLines <= r.stats.value.lines
    ensures r.stats.None? <==> !stats
  {
    var book := SelectBook(data, skip);
    var characters := Characters(book);
    var occurrences := CountOccurrences(book);
    var totalOccurrences := Sum(occurrences);
    TotalOccurrences(book);
    var frequency := Frequencies(occurrences);
    if totalOccurrences > 0 {
      FrequenciesSumToOne(occurrences);
    }
    var report: Option<Stats> := None;
    if stats {
      var st := ComputeStats(book);
      report := Some(st);
    }
    r := Report(characters, occurrences, totalOccurrences, frequency, report);
  }
}
