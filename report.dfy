/**
  The text report of the harmonic analysis: the header, one data line per
  sixteenth note written as `tick | chord | function`, and the parser that
  reads the `(tick, function)` timeline back out of such a report.
*/
module Report {
  import opened Wrappers
  import opened Text

  /** One entry of the timeline: `{'tick': ..., 'function': ...}`. */
  datatype Entry = Entry(tick: nat, func: string)

  /** One analysed sixteenth note: the chord's common name and its Roman-numeral figure. */
  datatype Row = Row(chord: string, func: string)

  /** The data line written for one sixteenth note, without its newline. */
  function FormatLine(tick: nat, chord: string, func: string): string {
    PadRight(NatToString(tick), 6) + " | " + PadRight(chord, 30) + " | " + func
  }

  /** The rule of sixty dashes written above and below the column titles. */
  function Rule(): string {
    seq(60, k => '-')
  }

  /** The column titles, padded like the data lines. */
  function Titles(): string {
    PadRight("Tick", 6) + " | " + PadRight("Chord Name", 30) + " | " + "Function"
  }

  /** The six header lines: file, type, key, a rule, the column titles and a rule. */
  function HeaderLines(path: string, fileType: string, tonic: string, mode: string): seq<string> {
    ["File: " + path, "Type: " + fileType, "Key: " + tonic + " " + mode, Rule(), Titles(), Rule()]
  }

  /** The data lines of a report, numbered from tick 0. */
  function DataLines(rows: seq<Row>): (ls: seq<string>)
    ensures |ls| == |rows|
    ensures forall i :: 0 <= i < |rows| ==> ls[i] == FormatLine(i, rows[i].chord, rows[i].func)
  {
    seq(|rows|, i requires 0 <= i < |rows| => FormatLine(i, rows[i].chord, rows[i].func))
  }

  /** Writes every line followed by a newline, as the report's `f.write` calls do. */
  function WriteLines(lines: seq<string>): string {
    if lines == [] then "" else lines[0] + "\n" + WriteLines(lines[1..])
  }

  /** The whole report file. */
  function ReportText(path: string, fileType: string, tonic: string, mode: string, rows: seq<Row>): string {
    WriteLines(HeaderLines(path, fileType, tonic, mode) + DataLines(rows))
  }

  /**
    One line of `parse_harmonic_output`: it needs at least three `|`-separated
    fields and a first field that is digits once stripped; the entry is that
    number and the stripped third field.
  */
  function ParseLine(line: string): Option<Entry> {
    var parts := Split(line, '|');
    if |parts| >= 3 && IsDigits(Strip(parts[0])) then
      Some(Entry(DigitsValue(Strip(parts[0])), Strip(parts[2])))
    else None
  }

  /** The entries of the lines that parse, in order. */
  function ParseLines(lines: seq<string>): seq<Entry> {
    FilterMap(ParseLine, lines)
  }

  /** `parse_harmonic_output`: the whole text is stripped and cut at newlines. */
  function Timeline(content: string): seq<Entry> {
    ParseLines(Split(Strip(content), '\n'))
  }

  /** The parsing loop of `parse_harmonic_output`, building the timeline one line at a time. */
  method ParseHarmonicOutput(content: string) returns (timeline: seq<Entry>)
    ensures timeline == Timeline(content)
  {
    var lines := Split(Strip(content), '\n');
    timeline := ParseEachLine(lines);
  }

  /** The loop over the lines, keeping the entries of the data lines. */
  method ParseEachLine(lines: seq<string>) returns (timeline: seq<Entry>)
    ensures timeline == ParseLines(lines)
  {
    timeline := [];
    var i := 0;
    while i < |lines|
      invariant 0 <= i <= |lines|
      invariant timeline == ParseLines(lines[..i])
    {
      var entry := ParseDataLine(lines[i]);
      ParseLinesSnoc(lines, i, entry);
      if entry.Some? {
        timeline := timeline + [entry.value];
      }
      i := i + 1;
    }
    assert lines[..|lines|] == lines;
  }

  lemma ParseLinesSnoc(lines: seq<string>, i: nat, entry: Option<Entry>)
    requires i < |lines| && entry == ParseLine(lines[i])
    ensures ParseLines(lines[..i + 1]) == ParseLines(lines[..i]) + (if entry.Some? then [entry.value] else [])
  {
    FilterMapSnoc(ParseLine, lines, i);
  }

  /** The body of that loop for one line. */
  method ParseDataLine(line: string) returns (entry: Option<Entry>)
    ensures entry == ParseLine(line)
  {
    entry := None;
    var parts := Split(line, '|');
    if |parts| >= 3 {
      var tickStr := Strip(parts[0]);
      if IsDigits(tickStr) {
        entry := Some(Entry(DigitsValue(tickStr), Strip(parts[2])));
      }
    }
  }

  /**
    A line whose first character is neither white space nor a digit yields
    nothing: this is how the header, the rules and the trailing cadence
    lines are skipped.
  */
  lemma NonDataLine(line: string)
    requires line != [] && !IsSpace(line[0]) && !IsDigit(line[0])
    ensures ParseLine(line) == None
  {
    var parts := Split(line, '|');
    JoinHead(parts, "|");
    if parts[0] != [] {
      assert parts[0][0] == line[0];
      StripKeepsFirst(parts[0]);
    }
  }

  lemma FieldsOfLine(tick: nat, chord: string, func: string)
    requires '|' !in chord && '|' !in func
    ensures Split(FormatLine(tick, chord, func), '|') ==
              [PadRight(NatToString(tick), 6) + " ", " " + PadRight(chord, 30) + " ", " " + func]
  {
    var a := PadRight(NatToString(tick), 6) + " ";
    var b := " " + PadRight(chord, 30) + " ";
    var c := " " + func;
    NatStringHasNo(tick, '|');
    PadHasNo(NatToString(tick), 6, '|');
    PadHasNo(chord, 30, '|');
    assert '|' !in a && '|' !in b && '|' !in c;
    assert FormatLine(tick, chord, func) == a + "|" + b + "|" + c;
    SplitThree(a, b, c, '|');
  }

  lemma ParseOfFields(line: string, a: string, b: string, c: string)
    requires Split(line, '|') == [a, b, c] && IsDigits(Strip(a))
    ensures ParseLine(line) == Some(Entry(DigitsValue(Strip(a)), Strip(c)))
  {
  }

  lemma StripTickField(tick: nat)
    ensures Strip(PadRight(NatToString(tick), 6) + " ") == NatToString(tick)
  {
    var d := NatToString(tick);
    var q := PadRight(d, 6);
    DigitsStripped(d);
    assert q + " " == "" + d + (q[|d|..] + " ");
    assert AllSpaces(q[|d|..] + " ");
    StripPadded("", d, q[|d|..] + " ");
  }

  lemma StripFuncField(func: string)
    requires Stripped(func)
    ensures Strip(" " + func) == func
  {
    assert " " + func == " " + func + "";
    StripPadded(" ", func, "");
  }

  /**
    Round trip of one data line: as long as the chord name and the function
    hold no `|` and the function has no surrounding white space, the parser
    reads back exactly the tick and the function that were written.
  */
  lemma ParseFormatLine(tick: nat, chord: string, func: string)
    requires '|' !in chord && '|' !in func && Stripped(func)
    ensures ParseLine(FormatLine(tick, chord, func)) == Some(Entry(tick, func))
  {
    FieldsOfLine(tick, chord, func);
    StripTickField(tick);
    StripFuncField(func);
    ParseOfFields(FormatLine(tick, chord, func), PadRight(NatToString(tick), 6) + " ",
                  " " + PadRight(chord, 30) + " ", " " + func);
  }

  predicate NoNewline(s: string) {
    '\n' !in s
  }

  /** A report row that the parser reads back faithfully. The function figure
      is non-empty and stripped so that the last line of a report never ends in
      white space, which the parser's whole-file strip would otherwise remove;
      music21's Roman-numeral figure is never empty, so no row the writer emits
      is excluded. */
  predicate WellFormedRow(r: Row) {
    '|' !in r.chord && '|' !in r.func && NoNewline(r.chord) && NoNewline(r.func)
    && r.func != [] && Stripped(r.func)
  }

  lemma {:induction false} WriteLinesJoin(lines: seq<string>)
    requires lines != []
    ensures WriteLines(lines) == Join(lines, "\n") + "\n"
    decreases |lines|
  {
    if |lines| > 1 {
      WriteLinesJoin(lines[1..]);
    }
  }

  /** The last field of a join is the text after the last separator. */
  lemma {:induction false} JoinLast(parts: seq<string>, sep: string)
    requires |parts| >= 1
    ensures var j := Join(parts, sep); var last := parts[|parts| - 1];
            |last| <= |j| && j[|j| - |last|..] == last
    decreases |parts|
  {
    if |parts| > 1 {
      JoinLast(parts[1..], sep);
      var tail := Join(parts[1..], sep);
      var j := Join(parts, sep);
      assert j == (parts[0] + sep) + tail;
      var last := parts[|parts| - 1];
      assert j[|j| - |last|..] == tail[|tail| - |last|..];
    }
  }

  lemma LineNoNewline(tick: nat, r: Row)
    requires WellFormedRow(r)
    ensures NoNewline(FormatLine(tick, r.chord, r.func))
  {
    NatStringHasNo(tick, '\n');
    PadHasNo(NatToString(tick), 6, '\n');
    PadHasNo(r.chord, 30, '\n');
  }

  /** The timeline a report of `rows` should give: tick `i` with row `i`'s function. */
  function Numbered(rows: seq<Row>): (es: seq<Entry>)
    ensures |es| == |rows|
    ensures forall i :: 0 <= i < |rows| ==> es[i] == Entry(i, rows[i].func)
  {
    if rows == [] then [] else Numbered(rows[..|rows| - 1]) + [Entry(|rows| - 1, rows[|rows| - 1].func)]
  }

  lemma ParseDataLines(rows: seq<Row>)
    requires forall i :: 0 <= i < |rows| ==> WellFormedRow(rows[i])
    ensures ParseLines(DataLines(rows)) == Numbered(rows)
  {
    var ls := DataLines(rows);
    var es := Numbered(rows);
    forall i | 0 <= i < |ls|
      ensures ParseLine(ls[i]) == Some(es[i])
    {
      ParseFormatLine(i, rows[i].chord, rows[i].func);
    }
    FilterMapAllSome(ParseLine, ls, es);
  }

  /** A line the parser skips because of its first character. */
  predicate SkippedLine(line: string) {
    line != [] && !IsSpace(line[0]) && !IsDigit(line[0])
  }

  lemma SkippedLines(ls: seq<string>)
    requires forall i :: 0 <= i < |ls| ==> SkippedLine(ls[i])
    ensures ParseLines(ls) == []
  {
    forall i | 0 <= i < |ls|
      ensures ParseLine(ls[i]) == None
    {
      NonDataLine(ls[i]);
    }
    FilterMapAllNone(ParseLine, ls);
  }

  lemma HeaderSkipped(path: string, fileType: string, tonic: string, mode: string)
    requires NoNewline(path) && NoNewline(fileType) && NoNewline(tonic) && NoNewline(mode)
    ensures var h := HeaderLines(path, fileType, tonic, mode);
            |h| == 6 && forall i :: 0 <= i < 6 ==> SkippedLine(h[i]) && NoNewline(h[i])
  {
    var h := HeaderLines(path, fileType, tonic, mode);
    var title := Titles();
    assert title[0] == 'T';
    PadHasNo("Tick", 6, '\n');
    PadHasNo("Chord Name", 30, '\n');
    assert NoNewline(title);
  }

  /** Stripping the written file removes exactly the final newline. */
  lemma StripWritten(lines: seq<string>)
    requires lines != [] && lines[0] != [] && !IsSpace(lines[0][0])
    requires var last := lines[|lines| - 1]; last != [] && !IsSpace(last[|last| - 1])
    ensures Strip(WriteLines(lines)) == Join(lines, "\n")
  {
    WriteLinesJoin(lines);
    var joined := Join(lines, "\n");
    var last := lines[|lines| - 1];
    JoinHead(lines, "\n");
    JoinLast(lines, "\n");
    assert joined[0] == lines[0][0];
    assert joined[|joined| - 1] == last[|last| - 1];
    StripPadded("", joined, "\n");
    assert "" + joined + "\n" == joined + "\n";
  }

  /**
    The report round trip: parsing a written report gives back one entry per
    row, entry `i` carrying tick `i` and row `i`'s function; the header lines
    contribute nothing.
  */
  lemma ReportTimeline(path: string, fileType: string, tonic: string, mode: string, rows: seq<Row>)
    requires NoNewline(path) && NoNewline(fileType) && NoNewline(tonic) && NoNewline(mode)
    requires forall i :: 0 <= i < |rows| ==> WellFormedRow(rows[i])
    ensures Timeline(ReportText(path, fileType, tonic, mode, rows)) == Numbered(rows)
  {
    ReportSplit(path, fileType, tonic, mode, rows);
    ReportParse(path, fileType, tonic, mode, rows);
    TimelineOfLines(ReportText(path, fileType, tonic, mode, rows),
                    HeaderLines(path, fileType, tonic, mode) + DataLines(rows));
  }

  /** The stripped report, cut at newlines, is its list of lines. */
  lemma ReportSplit(path: string, fileType: string, tonic: string, mode: string, rows: seq<Row>)
    requires NoNewline(path) && NoNewline(fileType) && NoNewline(tonic) && NoNewline(mode)
    requires forall i :: 0 <= i < |rows| ==> WellFormedRow(rows[i])
    ensures Split(Strip(ReportText(path, fileType, tonic, mode, rows)), '\n')
            == HeaderLines(path, fileType, tonic, mode) + DataLines(rows)
  {
    ReportLines(path, fileType, tonic, mode, rows);
    SplitWritten(HeaderLines(path, fileType, tonic, mode) + DataLines(rows));
  }

  /** Lines without newlines, and with nothing to strip at either end of the file. */
  predicate Writable(lines: seq<string>) {
    StartsWritable(lines) && EndsWritable(lines) && NoNewlines(lines)
  }

  predicate StartsWritable(lines: seq<string>) {
    lines != [] && lines[0] != [] && !IsSpace(lines[0][0])
  }

  predicate EndsWritable(lines: seq<string>) {
    lines != [] && lines[|lines| - 1] != [] && !IsSpace(lines[|lines| - 1][|lines[|lines| - 1]| - 1])
  }

  predicate NoNewlines(lines: seq<string>) {
    forall i :: 0 <= i < |lines| ==> '\n' !in lines[i]
  }

  /** Writable lines come back from the written text. */
  lemma SplitWritten(lines: seq<string>)
    requires Writable(lines)
    ensures Split(Strip(WriteLines(lines)), '\n') == lines
  {
    StripWritten(lines);
    SplitJoin(lines, '\n');
  }

  /** The header lines give nothing and data line `i` gives tick `i`. */
  lemma ReportParse(path: string, fileType: string, tonic: string, mode: string, rows: seq<Row>)
    requires NoNewline(path) && NoNewline(fileType) && NoNewline(tonic) && NoNewline(mode)
    requires forall i :: 0 <= i < |rows| ==> WellFormedRow(rows[i])
    ensures ParseLines(HeaderLines(path, fileType, tonic, mode) + DataLines(rows)) == Numbered(rows)
  {
    var header := HeaderLines(path, fileType, tonic, mode);
    FilterMapAppend(ParseLine, header, DataLines(rows));
    HeaderSkipped(path, fileType, tonic, mode);
    SkippedLines(header);
    ParseDataLines(rows);
  }

  lemma TimelineOfLines(content: string, lines: seq<string>)
    requires Split(Strip(content), '\n') == lines
    ensures Timeline(content) == ParseLines(lines)
  {
  }

  /** The lines of a report: no newline inside, and nothing to strip at either end of the file. */
  lemma ReportLines(path: string, fileType: string, tonic: string, mode: string, rows: seq<Row>)
    requires NoNewline(path) && NoNewline(fileType) && NoNewline(tonic) && NoNewline(mode)
    requires forall i :: 0 <= i < |rows| ==> WellFormedRow(rows[i])
    ensures Writable(HeaderLines(path, fileType, tonic, mode) + DataLines(rows))
  {
    HeaderWritable(path, fileType, tonic, mode);
    DataWritable(rows);
    WritableAppend(HeaderLines(path, fileType, tonic, mode), DataLines(rows));
  }

  lemma WritableAppend(header: seq<string>, data: seq<string>)
    requires StartsWritable(header) && NoNewlines(header) && NoNewlines(data)
    requires if data == [] then EndsWritable(header) else EndsWritable(data)
    ensures Writable(header + data)
  {
    var lines := header + data;
    assert lines[0] == header[0];
    assert lines[|lines| - 1] == if data == [] then header[|header| - 1] else data[|data| - 1];
    forall i | 0 <= i < |lines|
      ensures '\n' !in lines[i]
    {
      if i >= |header| {
        assert lines[i] == data[i - |header|];
      } else {
        assert lines[i] == header[i];
      }
    }
  }

  /** The header lines hold no newline and start and end in a character that is not white space. */
  lemma HeaderWritable(path: string, fileType: string, tonic: string, mode: string)
    requires NoNewline(path) && NoNewline(fileType) && NoNewline(tonic) && NoNewline(mode)
    ensures var h := HeaderLines(path, fileType, tonic, mode);
            StartsWritable(h) && EndsWritable(h) && NoNewlines(h)
  {
    var h := HeaderLines(path, fileType, tonic, mode);
    HeaderSkipped(path, fileType, tonic, mode);
    assert h[0] == "File: " + path;
    assert h[5] == Rule();
  }

  /** The data lines hold no newline, and the last one ends in its function name. */
  lemma DataWritable(rows: seq<Row>)
    requires forall i :: 0 <= i < |rows| ==> WellFormedRow(rows[i])
    ensures NoNewlines(DataLines(rows))
    ensures rows != [] ==> EndsWritable(DataLines(rows))
  {
    var data := DataLines(rows);
    forall i | 0 <= i < |data|
      ensures '\n' !in data[i]
    {
      LineNoNewline(i, rows[i]);
    }
    if rows != [] {
      var n := |rows| - 1;
      LineEnds(n, rows[n]);
    }
  }

  /** A formatted line ends where its function name ends. */
  lemma LineEnds(tick: nat, r: Row)
    requires WellFormedRow(r)
    ensures var l := FormatLine(tick, r.chord, r.func); l != [] && !IsSpace(l[|l| - 1])
  {
    var pre := PadRight(NatToString(tick), 6) + " | " + PadRight(r.chord, 30) + " | ";
    var l := pre + r.func;
    assert FormatLine(tick, r.chord, r.func) == l;
    assert l[|l| - 1] == r.func[|r.func| - 1];
  }
}
