/**
  The symbolic parts of `analyze_experiment.py`: the tempo lookup, the
  `Key:` line and chord-size guard of the chord analysis, and the label a
  `cut_tick_N` directory gets from the strong-cadence list of its chorale.
*/
module Experiment {
  import opened Wrappers
  import opened Text
  import opened Midi
  import Report
  import CadenceList

  // ---------------------------------------------------------------------
  // _get_tempo
  // ---------------------------------------------------------------------

  /** `msg.type == 'set_tempo'`. */
  predicate IsTempo(m: Message) {
    m.kind.Meta? && m.kind.meta.SetTempo?
  }

  /** The first `set_tempo` of a track at or after message `k`. */
  function TempoFrom(t: Track, k: nat): (r: Option<int>)
    requires k <= |t|
    ensures r.None? <==> forall j :: k <= j < |t| ==> !IsTempo(t[j])
    ensures r.Some? ==> exists j :: k <= j < |t| && IsTempo(t[j]) && t[j].kind.meta.tempo == r.value
                                   && forall i :: k <= i < j ==> !IsTempo(t[i])
    decreases |t| - k
  {
    if k == |t| then None
    else if IsTempo(t[k]) then Some(t[k].kind.meta.tempo)
    else TempoFrom(t, k + 1)
  }

  /** The first `set_tempo` of the first track that has one, from track `i` on. */
  function TracksTempoFrom(tracks: seq<Track>, i: nat): (r: Option<int>)
    requires i <= |tracks|
    ensures r.None? <==> forall j :: i <= j < |tracks| ==> TempoFrom(tracks[j], 0).None?
    decreases |tracks| - i
  {
    if i == |tracks| then None
    else if TempoFrom(tracks[i], 0).Some? then TempoFrom(tracks[i], 0)
    else TracksTempoFrom(tracks, i + 1)
  }

  lemma {:induction false} TempoSkip(t: Track, k: nat, m: nat)
    requires k <= m <= |t|
    requires forall j :: k <= j < m ==> !IsTempo(t[j])
    ensures TempoFrom(t, k) == TempoFrom(t, m)
    decreases m - k
  {
    if k < m {
      TempoSkip(t, k + 1, m);
    }
  }

  lemma {:induction false} TracksSkip(tracks: seq<Track>, i: nat, m: nat)
    requires i <= m <= |tracks|
    requires forall j :: i <= j < m ==> TempoFrom(tracks[j], 0).None?
    ensures TracksTempoFrom(tracks, i) == TracksTempoFrom(tracks, m)
    decreases m - i
  {
    if i < m {
      TracksSkip(tracks, i + 1, m);
    }
  }

  /** The `set_tempo` that comes first, tracks before messages, is the one found. */
  lemma TempoFirst(tracks: seq<Track>, i: nat, k: nat)
    requires i < |tracks| && k < |tracks[i]| && IsTempo(tracks[i][k])
    requires forall j :: 0 <= j < i ==> forall l :: 0 <= l < |tracks[j]| ==> !IsTempo(tracks[j][l])
    requires forall l :: 0 <= l < k ==> !IsTempo(tracks[i][l])
    ensures TracksTempoFrom(tracks, 0) == Some(tracks[i][k].kind.meta.tempo)
  {
    TempoSkip(tracks[i], 0, k);
    TracksSkip(tracks, 0, i);
  }

  /** `_get_tempo`: the first `set_tempo` scanning tracks, then messages, in order; 500000 if there is none. */
  method GetTempo(tracks: seq<Track>) returns (tempo: int)
    ensures tempo == match TracksTempoFrom(tracks, 0) case Some(v) => v case None => 500000
  {
    for i := 0 to |tracks|
      invariant forall j :: 0 <= j < i ==> TempoFrom(tracks[j], 0).None?
    {
      var track := tracks[i];
      for k := 0 to |track|
        invariant forall j :: 0 <= j < k ==> !IsTempo(track[j])
      {
        if IsTempo(track[k]) {
          TempoSkip(track, 0, k);
          TracksSkip(tracks, 0, i);
          return track[k].kind.meta.tempo;
        }
      }
      TempoSkip(track, 0, |track|);
    }
    TracksSkip(tracks, 0, |tracks|);
    return 500000;
  }

  // ---------------------------------------------------------------------
  // _parse_key_from_chords_txt
  // ---------------------------------------------------------------------

  /** What the key parser makes of a chord file: no `Key:` line, a `Key:` line with nothing after it (`IndexError`), or a key. */
  datatype KeyParse = NoKey | NoTonic | Key(tonic: string, mode: string)

  /** `parts = line[4:].strip().split()`: the tonic is the first word and the mode the second, or `major`. */
  function KeyOfLine(line: string): (r: KeyParse)
    requires StartsWith(line, "Key:")
    ensures r != NoKey
  {
    var parts := Words(Strip(line[4..]));
    if parts == [] then NoTonic
    else Key(parts[0], if |parts| > 1 then parts[1] else "major")
  }

  /** The key of the first line starting with `Key:`. */
  function FindKey(lines: seq<string>): (r: KeyParse)
    ensures r.NoKey? <==> forall i :: 0 <= i < |lines| ==> !StartsWith(lines[i], "Key:")
    decreases |lines|
  {
    if lines == [] then NoKey
    else if StartsWith(lines[0], "Key:") then KeyOfLine(lines[0])
    else
      var r := FindKey(lines[1..]);
      assert forall i :: 1 <= i < |lines| ==> lines[i] == lines[1..][i - 1];
      r
  }

  /** When line `i` is the first to start with `Key:`, it gives the key. */
  lemma {:induction false} FindKeyFirst(lines: seq<string>, i: nat)
    requires i < |lines| && StartsWith(lines[i], "Key:")
    requires forall j :: 0 <= j < i ==> !StartsWith(lines[j], "Key:")
    ensures FindKey(lines) == KeyOfLine(lines[i])
  {
    if i > 0 {
      assert lines[1..][i - 1] == lines[i];
      assert forall j :: 0 <= j < i - 1 ==> lines[1..][j] == lines[j + 1];
      FindKeyFirst(lines[1..], i - 1);
    }
  }

  /** The key line of a report, as the file yields it. */
  function KeyLine(tonic: string, mode: string): string {
    "Key: " + tonic + " " + mode + "\n"
  }

  /** `Key: <tonic> <mode>` reads back as that tonic and mode. */
  lemma KeyLineRoundTrip(tonic: string, mode: string)
    requires IsWord(tonic) && IsWord(mode)
    ensures StartsWith(KeyLine(tonic, mode), "Key:")
    ensures KeyOfLine(KeyLine(tonic, mode)) == Key(tonic, mode)
  {
    var line := KeyLine(tonic, mode);
    var core := tonic + " " + mode;
    assert line[..4] == "Key:";
    assert line[4..] == " " + core + "\n";
    assert Stripped(core) by {
      assert core[0] == tonic[0];
      assert core[|core| - 1] == mode[|mode| - 1];
    }
    StripPadded(" ", core, "\n");
    WordsOfPair(tonic, mode);
  }

  /** A `Key:` line with only a tonic gets the mode `major`. */
  lemma KeyTonicOnly(tonic: string)
    requires IsWord(tonic)
    ensures KeyOfLine("Key: " + tonic + "\n") == Key(tonic, "major")
  {
    var line := "Key: " + tonic + "\n";
    assert line[..4] == "Key:";
    assert line[4..] == " " + tonic + "\n";
    assert Stripped(tonic);
    StripPadded(" ", tonic, "\n");
    WordsOfOne(tonic);
  }

  /** A `Key:` line with nothing after the colon makes `parts[0]` raise. */
  lemma KeyBlank(trail: string)
    requires AllSpaces(trail)
    ensures KeyOfLine("Key:" + trail) == NoTonic
  {
    var line := "Key:" + trail;
    assert line[..4] == "Key:";
    assert line[4..] == trail;
    StripPadded(trail, "", "");
    assert trail + "" + "" == trail;
    WordsOfSpaces("");
  }

  lemma WordNoNewline(w: string)
    requires IsWord(w)
    ensures '\n' !in w
  {
    forall k | 0 <= k < |w|
      ensures w[k] != '\n'
    {
      assert !IsSpace(w[k]);
    }
  }

  lemma WrittenCons(all: seq<string>)
    requires all != [] && '\n' !in all[0]
    ensures Lines(Report.WriteLines(all)) == [all[0] + "\n"] + Lines(Report.WriteLines(all[1..]))
  {
    assert Report.WriteLines(all) == all[0] + "\n" + Report.WriteLines(all[1..]);
    LinesCons(all[0], Report.WriteLines(all[1..]));
  }

  /** The first three lines of a written file. */
  lemma WrittenHead(all: seq<string>)
    requires |all| >= 3 && '\n' !in all[0] && '\n' !in all[1] && '\n' !in all[2]
    ensures var ls := Lines(Report.WriteLines(all));
            |ls| >= 3 && ls[0] == all[0] + "\n" && ls[1] == all[1] + "\n" && ls[2] == all[2] + "\n"
  {
    WrittenCons(all);
    WrittenCons(all[1..]);
    WrittenCons(all[2..]);
    assert all[1..][1..] == all[2..];
  }

  lemma NotKeyLine(line: string)
    requires line != [] && line[0] != 'K'
    ensures !StartsWith(line, "Key:")
  {
    if |line| >= 4 {
      assert line[..4][0] == line[0];
    }
  }

  /** Two lines that do not start with `K`, then the key line: the key line decides. */
  lemma FindKeyThird(ls: seq<string>, tonic: string, mode: string)
    requires |ls| >= 3 && ls[2] == KeyLine(tonic, mode) && IsWord(tonic) && IsWord(mode)
    requires ls[0] != [] && ls[0][0] != 'K' && ls[1] != [] && ls[1][0] != 'K'
    ensures FindKey(ls) == Key(tonic, mode)
  {
    NotKeyLine(ls[0]);
    NotKeyLine(ls[1]);
    FindKeySkip(ls);
    FindKeySkip(ls[1..]);
    var rest := ls[1..][1..];
    assert rest[0] == ls[2];
    KeyLineRoundTrip(tonic, mode);
    FindKeyHere(rest);
  }

  lemma FindKeySkip(ls: seq<string>)
    requires ls != [] && !StartsWith(ls[0], "Key:")
    ensures FindKey(ls) == FindKey(ls[1..])
  {
  }

  lemma FindKeyHere(ls: seq<string>)
    requires ls != [] && StartsWith(ls[0], "Key:")
    ensures FindKey(ls) == KeyOfLine(ls[0])
  {
  }

  /** The key written into the header of a report is the key read back from it. */
  lemma ReportKey(path: string, fileType: string, tonic: string, mode: string, rows: seq<Report.Row>)
    requires '\n' !in path && '\n' !in fileType
    requires IsWord(tonic) && IsWord(mode)
    ensures FindKey(Lines(Report.ReportText(path, fileType, tonic, mode, rows))) == Key(tonic, mode)
  {
    WordNoNewline(tonic);
    WordNoNewline(mode);
    var h := Report.HeaderLines(path, fileType, tonic, mode);
    var all := h + Report.DataLines(rows);
    Report.HeaderSkipped(path, fileType, tonic, mode);
    assert all[0] == h[0] && all[1] == h[1] && all[2] == h[2];
    WrittenHead(all);
    var ls := Lines(Report.WriteLines(all));
    assert h[0][0] == 'F' && h[1][0] == 'T';
    assert h[2] + "\n" == KeyLine(tonic, mode);
    FindKeyThird(ls, tonic, mode);
  }

  // ---------------------------------------------------------------------
  // _identify_chord
  // ---------------------------------------------------------------------

  /**
    `_identify_chord`: fewer than two notes give `(None, None)`; otherwise
    the chord's name and Roman numeral come from the music analysis, which
    is passed in as `analyse`.
  */
  function IdentifyChord(notes: seq<int>, analyse: seq<int> -> (string, string)): (r: Option<(string, string)>)
    ensures r.None? <==> |notes| < 2
    ensures r.Some? ==> r.value == analyse(notes)
  {
    if |notes| < 2 then None else Some(analyse(notes))
  }

  // ---------------------------------------------------------------------
  // Cut directories and their labels
  // ---------------------------------------------------------------------

  const CutPrefix: string := "cut_tick_"

  /** `cut_tick_` followed by a digit starts at `p`. */
  predicate CutAt(s: string, p: nat) {
    p + |CutPrefix| < |s| && s[p..p + |CutPrefix|] == CutPrefix && IsDigit(s[p + |CutPrefix|])
  }

  /** The end of the run of digits starting at `i`. */
  function DigitsEnd(s: string, i: nat): (e: nat)
    requires i <= |s|
    ensures i <= e <= |s| && (e < |s| ==> !IsDigit(s[e]))
    ensures forall k :: i <= k < e ==> IsDigit(s[k])
    decreases |s| - i
  {
    if i == |s| || !IsDigit(s[i]) then i else DigitsEnd(s, i + 1)
  }

  /** `re.search(r"cut_tick_(\d+)", name)` from position `p`: the number after the first match. */
  function CutTickFrom(s: string, p: nat): (r: Option<nat>)
    requires p <= |s|
    ensures r.None? <==> forall q :: p <= q < |s| ==> !CutAt(s, q)
    decreases |s| - p
  {
    if p == |s| then None
    else if CutAt(s, p) then
      var d := p + |CutPrefix|;
      Some(DigitsValue(s[d..DigitsEnd(s, d)]))
    else CutTickFrom(s, p + 1)
  }

  function CutTick(name: string): Option<nat> {
    CutTickFrom(name, 0)
  }

  /** `"Strong Cadence" if tick_num in strong_cadences else "Cadence"`. */
  function CadenceType(tick: nat, strong: seq<nat>): (tag: string)
    ensures tag == "Strong Cadence" || tag == "Cadence"
    ensures tag == "Strong Cadence" <==> tick in strong
  {
    if tick in strong then "Strong Cadence" else "Cadence"
  }

  /** The label of a cut directory, or `None` when its name holds no tick (the loop's `continue`). */
  function CutLabel(name: string, strong: seq<nat>): Option<string> {
    match CutTick(name)
    case None => None
    case Some(t) => Some(CadenceType(t, strong))
  }

  /** A directory named `cut_tick_<n>` carries the tick `n`. */
  lemma CutTickOfName(n: nat)
    ensures CutTick(CutPrefix + NatToString(n)) == Some(n)
  {
    var d := NatToString(n);
    var s := CutPrefix + d;
    assert s[0..|CutPrefix|] == CutPrefix;
    assert s[|CutPrefix|] == d[0];
    assert CutAt(s, 0);
    assert DigitsEnd(s, |CutPrefix|) == |s| by {
      DigitsRun(s, |CutPrefix|);
    }
    assert s[|CutPrefix|..|s|] == d;
  }

  lemma {:induction false} DigitsRun(s: string, i: nat)
    requires i <= |s|
    requires forall k :: i <= k < |s| ==> IsDigit(s[k])
    ensures DigitsEnd(s, i) == |s|
    decreases |s| - i
  {
    if i < |s| {
      DigitsRun(s, i + 1);
    }
  }

  /**
    A cut at tick `n` is labelled `Strong Cadence` exactly when `n` is in
    the list written on the `Strong Cadences:` line of the chorale's chord
    file, and `Cadence` otherwise.
  */
  lemma CutLabelOfList(n: nat, pre: string, xs: seq<nat>, suf: string)
    requires forall p :: 0 <= p < |pre| ==> !CadenceList.LabelAt(pre + CadenceList.StrongLine(xs) + suf, p)
    ensures CutLabel(CutPrefix + NatToString(n), CadenceList.StrongCadences(pre + CadenceList.StrongLine(xs) + suf))
            == Some(if n in xs then "Strong Cadence" else "Cadence")
  {
    CutTickOfName(n);
    CadenceList.StrongCadencesRoundTrip(pre, xs, suf);
  }
}
