/**
  The two writers of `get_chords_per_16th.py`, applied to a chord list that
  is already known (one entry per sixteenth note, `None` for silence):
  `get_chords_per_16th` writes one numbered line per sixteenth, and
  `get_chords_per_16th_by_bar` cuts the list into bars of sixteen and writes
  each bar under its own heading.
*/
module ChordLines {
  import opened Wrappers
  import opened Text

  /** `c or 'rest'`: no chord and the empty name both print as `rest`. */
  function Shown(c: Option<string>): string {
    if c.Some? && c.value != "" then c.value else "rest"
  }

  /** `f"{i+1}: {c or 'rest'}\n"`. */
  function ChordLine(i: nat, c: Option<string>): string {
    NatToString(i + 1) + ": " + Shown(c) + "\n"
  }

  /** The lines of the per-sixteenth file, numbered from 1. */
  function NumberedLines(chords: seq<Option<string>>): (ls: seq<string>)
    ensures |ls| == |chords|
    ensures forall i :: 0 <= i < |chords| ==> ls[i] == ChordLine(i, chords[i])
  {
    seq(|chords|, i requires 0 <= i < |chords| => ChordLine(i, chords[i]))
  }

  /** The text `get_chords_per_16th` writes: line `i` shows chord `i`. */
  method WriteChordLines(chords: seq<Option<string>>) returns (text: string)
    ensures text == Concat(NumberedLines(chords))
  {
    text := "";
    ghost var lines := NumberedLines(chords);
    for i := 0 to |chords|
      invariant text == Concat(lines[..i])
    {
      ConcatPrefix(lines, i);
      text := text + ChordLine(i, chords[i]);
    }
    assert lines[..|chords|] == lines;
  }

  predicate OneLine(c: Option<string>) {
    '\n' !in Shown(c)
  }

  lemma ChordLineEnds(i: nat, c: Option<string>)
    requires OneLine(c)
    ensures var l := ChordLine(i, c); |l| > 0 && l[|l| - 1] == '\n' && '\n' !in l[..|l| - 1]
  {
    var l := ChordLine(i, c);
    var d := NatToString(i + 1);
    assert l[..|l| - 1] == d + ": " + Shown(c);
    assert '\n' !in d by {
      forall k | 0 <= k < |d| ensures d[k] != '\n' {
        assert IsDigit(d[k]);
      }
    }
  }

  /** Read back line by line, the file gives one line per chord, in order. */
  lemma ChordFileLines(chords: seq<Option<string>>)
    requires forall i :: 0 <= i < |chords| ==> OneLine(chords[i])
    ensures Lines(Concat(NumberedLines(chords))) == NumberedLines(chords)
  {
    var ls := NumberedLines(chords);
    forall i | 0 <= i < |ls|
      ensures |ls[i]| > 0 && ls[i][|ls[i]| - 1] == '\n' && '\n' !in ls[i][..|ls[i]| - 1]
    {
      ChordLineEnds(i, chords[i]);
    }
    LinesOfConcat(ls);
  }

  // ---------------------------------------------------------------------
  // Bars of sixteen
  // ---------------------------------------------------------------------

  /** `[chords[i:i+16] for i in range(0, len(chords), 16)]`. */
  function Bars<T>(chords: seq<T>): seq<seq<T>>
    decreases |chords|
  {
    if chords == [] then []
    else if |chords| <= 16 then [chords]
    else [chords[..16]] + Bars(chords[16..])
  }

  function Flatten<T>(bars: seq<seq<T>>): seq<T> {
    if bars == [] then [] else bars[0] + Flatten(bars[1..])
  }

  /**
    There are `ceil(n / 16)` bars; every bar but the last holds sixteen
    entries and the last one to sixteen; and the bars put back together are
    the chord list.
  */
  lemma {:induction false} BarsShape<T>(chords: seq<T>)
    ensures var bars := Bars(chords);
            && |bars| == (|chords| + 15) / 16
            && (forall k :: 0 <= k < |bars| - 1 ==> |bars[k]| == 16)
            && (bars != [] ==> 1 <= |bars[|bars| - 1]| <= 16)
            && Flatten(bars) == chords
    decreases |chords|
  {
    if |chords| > 16 {
      var rest := chords[16..];
      BarsShape(rest);
      var bars := Bars(chords);
      assert bars[1..] == Bars(rest);
      assert chords == chords[..16] + rest;
    } else if chords != [] {
      assert Flatten(Bars(chords)) == chords + [];
    }
  }

  /** Entry `j` of bar `k` is sixteenth `16 * k + j` of the whole list. */
  lemma {:induction false} BarsIndex<T>(chords: seq<T>, k: nat, j: nat)
    requires k < |Bars(chords)| && j < |Bars(chords)[k]|
    ensures 16 * k + j < |chords| && Bars(chords)[k][j] == chords[16 * k + j]
    decreases |chords|
  {
    if k > 0 {
      assert |chords| > 16;
      assert Bars(chords)[k] == Bars(chords[16..])[k - 1];
      BarsIndex(chords[16..], k - 1, j);
    }
  }

  /** `f"  16th {j+1}: {c or 'rest'}\n"`. */
  function PositionLine(j: nat, c: Option<string>): string {
    "  16th " + NatToString(j + 1) + ": " + Shown(c) + "\n"
  }

  /** The lines under one bar's heading, numbered from 1. */
  function PositionLines(bar: seq<Option<string>>): (ls: seq<string>)
    ensures |ls| == |bar|
    ensures forall j :: 0 <= j < |bar| ==> ls[j] == PositionLine(j, bar[j])
  {
    seq(|bar|, j requires 0 <= j < |bar| => PositionLine(j, bar[j]))
  }

  /** One bar: its heading `Bar {i+1}:` and a line per sixteenth. */
  function BarBlock(i: nat, bar: seq<Option<string>>): string {
    "Bar " + NatToString(i + 1) + ":\n" + Concat(PositionLines(bar))
  }

  function BarBlocks(bars: seq<seq<Option<string>>>): (bs: seq<string>)
    ensures |bs| == |bars|
    ensures forall i :: 0 <= i < |bars| ==> bs[i] == BarBlock(i, bars[i])
  {
    seq(|bars|, i requires 0 <= i < |bars| => BarBlock(i, bars[i]))
  }

  /** The inner loop of `get_chords_per_16th_by_bar`: one bar's heading and lines. */
  method WriteBar(i: nat, bar: seq<Option<string>>) returns (block: string)
    ensures block == BarBlock(i, bar)
  {
    var heading := "Bar " + NatToString(i + 1) + ":\n";
    var body := "";
    ghost var lines := PositionLines(bar);
    for j := 0 to |bar|
      invariant body == Concat(lines[..j])
    {
      ConcatPrefix(lines, j);
      body := body + PositionLine(j, bar[j]);
    }
    assert lines[..|bar|] == lines;
    block := heading + body;
  }

  /** `get_chords_per_16th_by_bar`: the bars it returns and the text it writes. */
  method WriteBars(chords: seq<Option<string>>) returns (bars: seq<seq<Option<string>>>, text: string)
    ensures bars == Bars(chords)
    ensures text == Concat(BarBlocks(bars))
  {
    bars := Bars(chords);
    text := "";
    for i := 0 to |bars|
      invariant text == Concat(BarBlocks(bars)[..i])
    {
      var block := WriteBar(i, bars[i]);
      ConcatPrefix(BarBlocks(bars), i);
      text := text + block;
    }
    assert BarBlocks(bars)[..|bars|] == BarBlocks(bars);
  }

  /** Line `j` of bar `k` shows the chord of sixteenth `16 * k + j`. */
  lemma BarLineShows(chords: seq<Option<string>>, k: nat, j: nat)
    requires k < |Bars(chords)| && j < |Bars(chords)[k]|
    ensures 16 * k + j < |chords|
    ensures PositionLine(j, Bars(chords)[k][j]) == "  16th " + NatToString(j + 1) + ": " + Shown(chords[16 * k + j]) + "\n"
  {
    BarsIndex(chords, k, j);
  }
}
