# Symbolic-music core of `aria` in Dafny

This project models the integer and string logic of the Bach-chorale tools in
the `aria` repository and proves properties of it. MIDI tracks, text files and
JSON data are modelled as in-memory values: sequences of messages, strings and
maps. The pieces are:

- **The sixteenth-grid sampler** (`_get_sounding_notes_per_16th`). It merges
  every track's note events at their absolute ticks and sorts them with offs
  before ons at equal ticks. At each grid index it replays the events up to
  that tick and keeps the sounding pitches in ascending order. A second gate
  rejects a file at its first sample with fewer than three pitches. The copy in
  `experiments/analyze_experiment.py:22-54` is the same code, so the same model
  covers it.
- **The harmonic report and the cadence detector.** This covers the report
  header and the `tick | chord | function` line writer, and the parser that
  reads those lines back. It also covers the run-length compression into chord
  events, the strict V→I test with its beat and duration gates, and the
  strong/regular split.
- **The `Strong Cadences: [..]` line.** This is the line writer and the parser
  behind `extract_cut_points` and `_parse_strong_cadences`. The regular
  expression `Strong Cadences.*\[(.*?)\]` is modelled as the leftmost match of
  this one pattern.
- **The tick-exact cutter** (`cut_midi_at_16th`). It tracks sounding notes in an
  insertion-ordered `(channel, note)` dictionary and applies the cut policy
  before, at and past the cut tick.
- **The rule-based chord namer** of `get_chords_per_16th.py`. This covers
  interval sets, suspended, tension and quality precedence, first match by
  ascending root, and the slash bass. It also covers the two writers
  (`N: chord` lines, and bars of sixteen).
- **The V→I scanner** of `get_5_to_1_places.py`. It parses the chord lines,
  skips some lines and crashes on others, carries the previous chord across
  lines, and writes the `v -> i` output. A separate module proves which namer
  names the scanner reads back unchanged, and which ones it calls major.
- **The JSB chorale encoder** (`jsb_json_to_midi`). It selects the split key,
  computes the tempo and step length, and turns each time step's set
  difference into note-off and note-on messages with the pending delta.
- **The analysis helpers** of `experiments/analyze_experiment.py`: the first
  `set_tempo`, the `Key:` line parser, the `_identify_chord` size guard, and the
  `cut_tick_N` directory label.

Python's string built-ins that this code relies on are stated in module `Text`
and used throughout:
- `isspace`, `strip`, `split(sep)`, `split(sep, 1)` and `split()`;
- `isdigit`, `int()`, `str(n)` and left-justified padding;
- iteration over the lines of a file.

`Sets` gives `sorted()` of a set of integers.

The code that updates state step by step is written as methods with loops. Each
method is proved equal to a specification function, and the properties are
proved about that function:
- the sampler, the parsers' line loops and `get_chord_events`;
- `find_cadences` and the cutter;
- the chord writers, the V→I scan and the JSB encoder;
- `_get_tempo`.

## Model

| member | source | states |
|---|---|---|
| Midi.PrefixSumMonotone | adisi_main.py:27-29 | the running sum of deltas never decreases along a track |
| Sampler.TrackEventsFromMessages | adisi_main.py:26-33 | every collected event comes from a message of its track, at the running sum of deltas through it, with its note; an On only from a sounding `note_on`, an Off only from `note_off` or a velocity-0 `note_on` |
| Sampler.MessagesGiveEvents | adisi_main.py:26-33 | conversely every note-on or note-off message yields its event at its running tick |
| Sampler.Insert | adisi_main.py:35 | inserting an event adds exactly that event to the multiset |
| Sampler.InsertSorted | adisi_main.py:35 | insertion keeps the (tick, Off before On) order |
| Sampler.SortEvents | adisi_main.py:34-35 | the sorted list is ordered by tick with offs before ons at equal ticks, and is a permutation of the input |
| Sampler.MaxTick | adisi_main.py:38 | the last tick is at least every event's tick and is attained, or 0 without events |
| Sampler.RoundHalfEven | adisi_main.py:39 | Python's `round`: the nearest integer to the quotient, and the even one on a tie |
| Sampler.RoundZero | adisi_main.py:38-39 | with no events there are zero samples |
| Sampler.FirstAfter | adisi_main.py:46-48 | the scan stops at the first event past the target, and every event before it is at or before the target |
| Sampler.FirstAfterUnique | adisi_main.py:46-48 | that stopping index is the only one with this property |
| Sampler.CollectEvents | adisi_main.py:25-33 | the collecting loop yields the events of all tracks in order |
| Sampler.SoundingAt | adisi_main.py:45-52 | the replay loop yields the set of pitches sounding at the target |
| Sampler.SampleGrid | adisi_main.py:42-53 | one sample per grid index, each the ascending list of the pitches sounding at `(i * tpb) / 4` |
| Sampler.SoundingNotesPer16th | adisi_main.py:15-55 | the number of samples is the rounded count of sixteenths up to the last tick; sample `i` is the ascending list of sounding pitches at `(i * tpb) / 4`, strictly increasing; no events give no samples |
| Sampler.ReplayLastEvent | adisi_main.py:45-52 | a pitch is active after a replay iff its last event so far is an On (a repeated On or a stray Off changes nothing) |
| Sampler.SortedPrefix | adisi_main.py:35-48 | over the sorted events, an event is replayed iff its tick is at most the target |
| Sampler.SortedOrder | adisi_main.py:35 | in the sorted list, an event with an earlier tick comes first |
| Sampler.HalfOpenSounding | adisi_main.py:43-53 | a pitch with one On at `a` and one Off at `b > a` sounds at a target iff `a <= target < b` |
| Sampler.FirstThinSample | adisi_main.py:99-103 | no index is returned iff every sample holds at least three pitches; otherwise the index returned is the first thin sample |
| Report.DataLines | adisi_main.py:122-152 | data line `i` is the formatted line of tick `i` and row `i` |
| Report.FieldsOfLine | adisi_main.py:152 | a formatted line splits at `\|` into exactly the padded tick, the padded chord and the function |
| Report.ParseOfFields | adisi_main.py:178-186 | a line of three fields whose first is digits once stripped parses to that number and the stripped third field |
| Report.StripTickField | adisi_main.py:181 | stripping the padded tick field gives back the digits of the tick |
| Report.StripFuncField | adisi_main.py:185 | stripping the function field gives back a function without surrounding white space |
| Report.ParseFormatLine | adisi_main.py:152 | a written data line parses back to its tick and function when the chord and function hold no `\|` and the function has no surrounding white space |
| Report.NonDataLine | adisi_main.py:180-182 | a line starting with a character that is neither space nor digit yields nothing |
| Report.LineNoNewline | adisi_main.py:152 | a data line of well-formed fields holds no newline |
| Report.ParseDataLine | adisi_main.py:178-186 | the per-line parse step computes the line's entry or nothing |
| Report.ParseEachLine | adisi_main.py:177-186 | the loop yields the entries of the lines that parse, in order |
| Report.ParseHarmonicOutput | adisi_main.py:170-187 | `parse_harmonic_output` yields the timeline of the stripped text split at newlines |
| Report.ParseDataLines | adisi_main.py:177-186 | written data lines parse back to entry `i` = (tick `i`, function of row `i`) |
| Report.SkippedLines | adisi_main.py:180-182 | lines that are not data lines yield no entries |
| Report.HeaderSkipped | adisi_main.py:114-119 | the six header lines are all skipped by the parser and hold no newline |
| Report.StripWritten | adisi_main.py:175 | stripping written lines removes only the final newline |
| Report.SplitWritten | adisi_main.py:175 | splitting the stripped text at newlines gives back the written lines |
| Report.ReportSplit | adisi_main.py:175 | the report text splits back into its header lines followed by its data lines |
| Report.TimelineOfLines | adisi_main.py:175-187 | the timeline of a text is the parse of its lines |
| Report.ReportLines | adisi_main.py:114-152 | the report's lines hold no newline, the first does not start and the last does not end in white space |
| Report.ReportParse | adisi_main.py:177-187 | the header and data lines parse to exactly the numbered functions of the rows |
| Report.ReportTimeline | adisi_main.py:114-152 | round trip: parsing a written report gives tick `i` with row `i`'s function for every row |
| Cadence.GetChordEvents | adisi_main.py:191-228 | the compression loop computes the chord events of the timeline |
| Cadence.ScanChained | adisi_main.py:204-218 | the closed events of the scan chain up: each ends where the next starts, with changed functions |
| Cadence.ChordEventsShape | adisi_main.py:196-226 | no events iff no timeline; the first starts at the first tick; adjacent events differ in function; a non-final duration is the next start minus its own; the final one is last tick minus start plus one |
| Cadence.ScanExpand | adisi_main.py:204-218 | on consecutive ticks, the closed events expanded plus the open run reproduce the functions seen so far |
| Cadence.ExpandChordEvents | adisi_main.py:191-228 | on ticks 0..n-1, expanding the events reproduces the function sequence exactly |
| Cadence.ScanStarts | adisi_main.py:204-218 | on strictly increasing ticks the closed starts increase and stay before the open start |
| Cadence.ChordEventsIncreasing | adisi_main.py:209-226 | on strictly increasing ticks the event starts strictly increase and every duration is at least one |
| Cadence.Classify | adisi_main.py:274-278 | a pair is strong iff it is a perfect cadence and the resolution lasts at least 8; regular iff perfect and 2 to 7; otherwise neither |
| Cadence.DominantThenTonic | adisi_main.py:242-262 | a dominant run of length `m >= 2` with `m % 4 == 0`, then a tonic run of length `d`, gives strong `[m]` iff `d >= 8` and regular `[m]` iff `2 <= d < 8` |
| Cadence.TwoRunsEvents | adisi_main.py:196-226 | two runs of functions compress to exactly two events with their starts and lengths |
| Cadence.PairCadences | adisi_main.py:273-278 | two events give the second start in the list that their class names, and in no other |
| Cadence.FileCadences | adisi_main.py:269-280 | the pairing loop yields the strong and regular start lists of the events |
| Cadence.FindCadences | adisi_main.py:264-280 | `find_cadences` is parse, compress, then classify adjacent pairs |
| Cadence.StartsMembership | adisi_main.py:273-278 | a tick is in a list iff some adjacent pair of that class has its second event starting there |
| Cadence.StartsAscending | adisi_main.py:273-278 | with increasing event starts each list is ascending |
| Cadence.CadencesAscendingDisjoint | adisi_main.py:269-280 | both lists are ascending and no tick is in both |
| Cadence.FoundCadencesAscendingDisjoint | adisi_main.py:264-280 | for a report with increasing ticks, both found lists are ascending and disjoint |
| Cadence.FourDominantsEightTonics | adisi_main.py:264-280 | `V` for ticks 0-3 and `I` for 4-11 give strong `[4]` and regular `[]` |
| Text.IndexFrom | adisi_main.py:319 | the first position of an element at or after a start, or the end when there is none |
| CadenceList.LastOpen | adisi_main.py:319 | the greedy `.*` settles on the last `[` of the line that a later `]` on the line closes |
| CadenceList.SearchSkips | adisi_main.py:319 | the leftmost search passes over positions where the pattern does not match |
| CadenceList.NoLabelNoCadences | adisi_main.py:319-326 | without the label anywhere the result is the empty list |
| CadenceList.MatchOfChars | adisi_main.py:319 | at a label followed by `: [`, list characters and `]` before the newline, the group is the text between the brackets |
| CadenceList.MatchOfLine | adisi_main.py:319-321 | the written line's match is its list body |
| CadenceList.ListBodyChars | adisi_main.py:291 | the body of a printed list of naturals holds only digits, commas and spaces |
| CadenceList.BodyPieces | adisi_main.py:291 | the printed body is the digit strings joined by commas, all but the first preceded by a space |
| CadenceList.PiecesParse | adisi_main.py:323 | every piece strips to digits whose value is the listed number |
| CadenceList.ParseJoined | adisi_main.py:321-323 | joined digit pieces parse back to their numbers in order |
| CadenceList.ParseListBody | adisi_main.py:321-323 | the body of a printed list parses back to the list, including the empty list |
| CadenceList.StrongCadencesRoundTrip | adisi_main.py:313-326 | round trip: the `Strong Cadences: [..]` line written into a text is read back as the same list, when no earlier text starts the label |
| Cutter.KeyIndex | adisi_main.py:363-364 | the position of a key in the tracker, or its length exactly when the key is absent |
| Cutter.Put | adisi_main.py:361 | assigning a key keeps keys distinct, adds the key, overwrites in place when present and appends when new |
| Cutter.Remove | adisi_main.py:363-364 | deleting a key keeps keys distinct, removes just that key and keeps the order of the rest; an absent key changes nothing |
| Cutter.Track | adisi_main.py:359-364 | tracking one message keeps the tracker's keys distinct |
| Cutter.Keep | adisi_main.py:355-380 | the tracker after the kept prefix has distinct keys |
| Cutter.FirstPast | adisi_main.py:349-383 | the index of the first message past the cut, or the track length; every earlier message is at or before the cut |
| Cutter.Closers | adisi_main.py:386-393 | one `note_off` of velocity 0 per tracked key in tracker order, the first with the remaining delta and the rest with 0 |
| Cutter.Admit | adisi_main.py:351-380 | one step of the loop at or before the cut: keep and track, or drop an onset at the cut |
| Cutter.Close | adisi_main.py:386-395 | closing appends exactly the synthesized offs |
| Cutter.CutTrack | adisi_main.py:344-399 | the per-track loop computes the cut of the track |
| Cutter.CutMidi | adisi_main.py:337-399 | one output track per input track, each the cut of its input at `(index * tpb) / 4` |
| Cutter.KeepTracks | adisi_main.py:359-380 | the tracker's keys are the notes still sounding in the kept output |
| Cutter.ClosersSilence | adisi_main.py:389-393 | the synthesized offs silence exactly the tracked keys |
| Cutter.CutSilences | adisi_main.py:383-395 | a track that passes the cut ends with nothing sounding |
| Cutter.NeverPastNoOffs | adisi_main.py:349-398 | a track that never passes the cut gets no offs, only the end-of-track |
| Cutter.KeepCopies | adisi_main.py:356-376 | without an onset at the cut, the kept prefix is the input prefix unchanged |
| Cutter.CutCopiesBefore | adisi_main.py:355-398 | then the output starts with the input up to the first message past the cut, and ends with an end-of-track |
| Cutter.KeptOutIndex | adisi_main.py:355-376 | every kept message is an input message, in input order |
| Cutter.OneNoteCutInside | adisi_main.py:383-395 | a note from tick 0 to `len`, cut strictly inside it: its onset, a synthesized off with delta `cut`, and the end-of-track |
| Cutter.OneNoteCutAtOff | adisi_main.py:367-380 | the same note cut at or after its off keeps the natural off and synthesizes none |
| Cutter.EndOfTrackTwice | adisi_main.py:355-398 | an end-of-track before the cut is copied and a second one appended |
| Cutter.OnsetAtCutLosesTime | adisi_main.py:369-371 | as written, for On a at 0, On b at `d`, Offs at `2d` and `3d` and a cut at `d`: the onset at the cut is dropped with its delta, so the closing off of a lands at tick 0 instead of `d` |
| Cutter.FixedKeepsTicks | adisi_main.py:369-371 | corrected cut: each kept message sits at its input tick |
| Cutter.FixedClosesAtCut | adisi_main.py:386-393 | corrected cut: every synthesized off sits exactly on the cut |
| Cutter.FixedAgrees | adisi_main.py:367-376 | the corrected cut equals the source's cut whenever no onset falls on the cut |
| Cutter.OnsetAtCutFixed | adisi_main.py:369-371 | the corrected cut of the same track closes a on tick `d` |
| ChordNamer.IntervalsDistinct | adisi_utils/get_chords_per_16th.py:7-13 | interval `k` is `(root + k + 1) % 12`; the eleven are distinct and none is the root |
| ChordNamer.IntervalsOfC | adisi_utils/get_chords_per_16th.py:7-13 | over C the intervals are 1 to 11 |
| ChordNamer.Tensions | adisi_utils/get_chords_per_16th.py:22-30 | `b9` iff m2; `#11` iff d5 with a third and p5; `b13` iff a5 with m7 or M7; in that order |
| ChordNamer.ClassifyPrecedence | adisi_utils/get_chords_per_16th.py:58-71 | sus only without a third, sus2 before sus4; then major, minor, diminished, augmented in that precedence; tensions only on major and minor; no shape iff none applies |
| ChordNamer.PitchClasses | adisi_utils/get_chords_per_16th.py:76 | the pitch classes are exactly the notes mod 12 |
| ChordNamer.NotesToChord | adisi_utils/get_chords_per_16th.py:73-75 | no name iff no notes or more than four notes (counted as notes, not pitch classes) |
| ChordNamer.FirstMatchAt | adisi_utils/get_chords_per_16th.py:79-81 | a match found is at the first root in order that has a chord type, with that root's chord |
| ChordNamer.FirstMatchNone | adisi_utils/get_chords_per_16th.py:79-83 | no match is found only when no root has a chord type |
| ChordNamer.LowerRootsFail | adisi_utils/get_chords_per_16th.py:79-80 | every pitch class below the matching root classifies as nothing |
| ChordNamer.NameOfMatch | adisi_utils/get_chords_per_16th.py:79-81 | the name is the chord type, with `/bass` appended iff the bass differs from the root |
| ChordNamer.NoMatchAnywhere | adisi_utils/get_chords_per_16th.py:79-83 | when no root in sorted order matches, no pitch class matches at all |
| ChordNamer.NameOverFirstMatch | adisi_utils/get_chords_per_16th.py:76-83 | the name is the lowest matching root's name (with a slash bass when needed), or the bare bass name when nothing matches |
| ChordNamer.NameAtFirstRoot | adisi_utils/get_chords_per_16th.py:79-81 | when the lowest pitch class matches, its chord names the notes |
| ChordNamer.NotesOver | adisi_utils/get_chords_per_16th.py:73-83 | one to four notes are named over the pitch class of the lowest note |
| ChordNamer.SingleNote | adisi_utils/get_chords_per_16th.py:73-83 | a single note is named by its own pitch class |
| ChordNamer.MajorAtC | adisi_utils/get_chords_per_16th.py:32-36 | C, E, G and nothing of m2, m3, d5, a5, m7, M7 name a plain `C` |
| ChordNamer.MinorAtC | adisi_utils/get_chords_per_16th.py:38-42 | {0, 3, 7} at C is `Cm` |
| ChordNamer.DimAtC | adisi_utils/get_chords_per_16th.py:44-51 | {0, 3, 6} at C is `Cdim` |
| ChordNamer.AugAtC | adisi_utils/get_chords_per_16th.py:53-56 | {0, 4, 8} at C is `Caug` |
| ChordNamer.Sus2AtC | adisi_utils/get_chords_per_16th.py:15-17 | {0, 2, 7} at C is `Csus2` |
| ChordNamer.Dim7AtC | adisi_utils/get_chords_per_16th.py:44-47 | {0, 3, 6, 9} at C is `Cdim7` |
| ChordNamer.SharpElevenAtC | adisi_utils/get_chords_per_16th.py:26-35 | {0, 4, 6, 7} at C is `C#11`: the tension is glued to the root name |
| ChordNamer.CMajor | adisi_utils/get_chords_per_16th.py:73-83 | {60, 64, 67} is named `C` |
| ChordNamer.CMinor | adisi_utils/get_chords_per_16th.py:73-83 | {60, 63, 67} is named `Cm` |
| ChordNamer.CDim | adisi_utils/get_chords_per_16th.py:73-83 | {60, 63, 66} is named `Cdim` |
| ChordNamer.CAug | adisi_utils/get_chords_per_16th.py:73-83 | {60, 64, 68} is named `Caug` |
| ChordNamer.CSus2 | adisi_utils/get_chords_per_16th.py:73-83 | {60, 62, 67} is named `Csus2` |
| ChordNamer.CDim7 | adisi_utils/get_chords_per_16th.py:73-83 | {60, 63, 66, 69} is named `Cdim7` |
| ChordNamer.CSharpEleven | adisi_utils/get_chords_per_16th.py:73-83 | {60, 64, 66, 67} is named `C#11` |
| ChordNamer.COverG | adisi_utils/get_chords_per_16th.py:73-83 | {55, 60, 64, 67} is named `C/G` |
| ChordNamer.COverA | adisi_utils/get_chords_per_16th.py:73-83 | {57, 60, 64, 67} is named `C/A` |
| ChordLines.NumberedLines | adisi_utils/get_chords_per_16th.py:107-108 | line `i` is `i+1`, a colon and the chord or `rest` |
| ChordLines.WriteChordLines | adisi_utils/get_chords_per_16th.py:104-109 | the writer's text is those lines in order |
| ChordLines.ChordLineEnds | adisi_utils/get_chords_per_16th.py:108 | each line ends in its only newline |
| ChordLines.ChordFileLines | adisi_utils/get_chords_per_16th.py:106-108 | read back line by line, the file gives one line per chord, in order |
| ChordLines.BarsShape | adisi_utils/get_chords_per_16th.py:113 | `ceil(n / 16)` bars, all of sixteen but the last of one to sixteen, and together they are the chord list |
| ChordLines.BarsIndex | adisi_utils/get_chords_per_16th.py:113 | entry `j` of bar `k` is chord `16 * k + j` |
| ChordLines.BarBlocks | adisi_utils/get_chords_per_16th.py:115-118 | block `i` is the heading and lines of bar `i` |
| ChordLines.WriteBar | adisi_utils/get_chords_per_16th.py:116-118 | the inner loop writes the bar's heading and one line per sixteenth |
| ChordLines.WriteBars | adisi_utils/get_chords_per_16th.py:111-119 | the bars returned are the chunks of sixteen and the text is their blocks in order |
| ChordLines.BarLineShows | adisi_utils/get_chords_per_16th.py:115-118 | line `j` of bar `k` shows chord `16 * k + j` |
| ChordFile.IsMajorChord | adisi_utils/get_5_to_1_places.py:6-27 | an empty quality is major |
| ChordFile.IsMajorChordIff | adisi_utils/get_5_to_1_places.py:6-27 | a single letter is major; a chord is not major iff its quality starts with `m` but not `maj`, or with `dim`, `aug` or `sus` |
| ChordFile.ReadChord | adisi_utils/get_5_to_1_places.py:48-73 | an accepted chord has the line's index, a root and a bass that are note names, and a non-empty base |
| ChordFile.ReadLine | adisi_utils/get_5_to_1_places.py:35-73 | an accepted line is a well-formed reading |
| ChordFile.NoteIndex | adisi_utils/get_5_to_1_places.py:79 | `NOTES.index`: the first position holding the name, and 12 when no position does |
| FiveToOne.Readings | adisi_utils/get_5_to_1_places.py:35-73 | one reading per line |
| FiveToOne.ReadLinesWellRead | adisi_utils/get_5_to_1_places.py:52-73 | every chord read from a line has a known root and bass and a non-empty base |
| FiveToOne.ReadingsAt | adisi_utils/get_5_to_1_places.py:35 | reading `k` is the reading of line `k` |
| FiveToOne.Accepted | adisi_utils/get_5_to_1_places.py:36-86 | only chords are kept, never more than there are readings |
| FiveToOne.AcceptedRead | adisi_utils/get_5_to_1_places.py:36-86 | from well-formed readings, every kept chord is well formed |
| FiveToOne.ReadAt | adisi_utils/get_5_to_1_places.py:36-73 | the loop body reads line `i` |
| FiveToOne.Advance | adisi_utils/get_5_to_1_places.py:75-86 | one accepted chord extends the pairs by the pair with the previous chord iff that pair is a V→I |
| FiveToOne.ScanLines | adisi_utils/get_5_to_1_places.py:31-86 | the scan fails iff some line crashes before the end; otherwise it yields the V→I pairs of consecutive accepted chords |
| FiveToOne.PairsMembers | adisi_utils/get_5_to_1_places.py:79-86 | a pair is recorded iff consecutive accepted chords are a fifth apart, the first is major, the second is in root position and on the third quarter |
| FiveToOne.PairSource | adisi_utils/get_5_to_1_places.py:79-86 | every recorded pair comes from two consecutive kept chords that pass the test |
| FiveToOne.PairRecorded | adisi_utils/get_5_to_1_places.py:79-86 | every two consecutive kept chords that pass the test are recorded |
| FiveToOne.FifthApartMod | adisi_utils/get_5_to_1_places.py:79 | on positions up to 12 the fifth test agrees with `(hi - lo) % 12 == 7` |
| FiveToOne.PairsBound | adisi_utils/get_5_to_1_places.py:79-84 | at most one pair per accepted chord after the first |
| FiveToOne.WritePairs | adisi_utils/get_5_to_1_places.py:88-90 | the writer's text is one `v -> i` line per pair |
| FiveToOne.PairLineEnds | adisi_utils/get_5_to_1_places.py:90 | each output line ends in its only newline |
| FiveToOne.PairsTextLines | adisi_utils/get_5_to_1_places.py:88-90 | read back line by line, the output gives line `k` for pair `k` |
| FiveToOne.FiveToOnePlaces | adisi_utils/get_5_to_1_places.py:29-90 | on a text, the script crashes iff a line crashes, and otherwise writes the lines of the V→I pairs |
| ReadBack.ClassifyRendered | adisi_utils/get_chords_per_16th.py:58-71 | every shape the namer produces is one its suffix renders |
| ReadBack.NameShape | adisi_utils/get_chords_per_16th.py:5 | a note name is a letter A-G, optionally followed by `#` |
| ReadBack.NoteIndexOfName | adisi_utils/get_5_to_1_places.py:79 | `NOTES.index` of a pitch class's name is the pitch class |
| ReadBack.SuffixPlain | adisi_utils/get_chords_per_16th.py:32-56 | suffixes hold no space, colon or slash; a suffix starts with `#` iff it is a plain major chord whose first tension is `#11` |
| ReadBack.QualityOfName | adisi_utils/get_5_to_1_places.py:11-19 | the quality read from a name is its suffix, except that a `#` suffix after a one-letter root is taken as part of the root |
| ReadBack.MajorShapeIsMajor | adisi_utils/get_5_to_1_places.py:19-27 | names of major shapes are major |
| ReadBack.MinorShapeNotMajor | adisi_utils/get_5_to_1_places.py:21-22 | names of minor shapes are not major |
| ReadBack.IsMajorOfName | adisi_utils/get_5_to_1_places.py:6-27 | a rendered name is major iff its shape is major |
| ReadBack.LineFieldsOf | adisi_utils/get_5_to_1_places.py:36-44 | a line `N: name` gives back the index `N` and the name |
| ReadBack.ReadChordPlain | adisi_utils/get_5_to_1_places.py:52-73 | a readable chord without slash has its root as bass |
| ReadBack.ReadChordSlash | adisi_utils/get_5_to_1_places.py:64-71 | a readable slash chord gives the bass after the slash |
| ReadBack.ReadChordOfName | adisi_utils/get_5_to_1_places.py:52-73 | a namer name is read back with its root, bass and base, when its suffix does not start with `#` |
| ReadBack.ReadBackLine | adisi_utils/get_5_to_1_places.py:35-73 | a line written by the namer's writer is read back with its index, root, bass and base |
| ReadBack.SharpElevenMisread | adisi_utils/get_5_to_1_places.py:55-62 | a natural letter followed by `#` and a slash-free rest is read with the sharpened root when that is one of the twelve names (`C#11` as C#), and skipped otherwise (`E#11`) |
| ReadBack.SharpRoots | adisi_utils/get_5_to_1_places.py:4 | of the seven letters, exactly C, D, F, G and A take a sharp among the twelve names |
| JsbEncoder.SelectSequences | adisi_utils/jsb_json_to_midi.py:11-18 | an error only when no sequences were found; otherwise a non-empty list |
| JsbEncoder.SelectFirstPresent | adisi_utils/jsb_json_to_midi.py:12-15 | the first present split key decides, and an empty split there is the error |
| JsbEncoder.SelectNonePresent | adisi_utils/jsb_json_to_midi.py:17-18 | no split key gives the error |
| JsbEncoder.PickSequences | adisi_utils/jsb_json_to_midi.py:11-15 | the key loop with `break` picks the first present split |
| JsbEncoder.TempoMicros | adisi_utils/jsb_json_to_midi.py:21 | no value iff the tempo is zero; the sign follows the tempo |
| JsbEncoder.TempoMicrosBounds | adisi_utils/jsb_json_to_midi.py:21 | the value is 60000000 divided by the tempo, truncated toward zero |
| JsbEncoder.StepTicks | adisi_utils/jsb_json_to_midi.py:20-22 | a step times steps per beat is 480 ticks |
| JsbEncoder.InRange | adisi_utils/jsb_json_to_midi.py:35 | the step's pitches that lie in 21..108 |
| JsbEncoder.NoteMessages | adisi_utils/jsb_json_to_midi.py:40-46 | one message per note |
| JsbEncoder.NoteMessagesAt | adisi_utils/jsb_json_to_midi.py:40-46 | message `k` is the note's on or off, with the pending delta only on the first |
| JsbEncoder.AppendNotes | adisi_utils/jsb_json_to_midi.py:40-46 | one inner loop appends its notes' messages and leaves the carried delta |
| JsbEncoder.SortedNotes | adisi_utils/jsb_json_to_midi.py:40 | `sorted()` of a set is its ascending sequence |
| JsbEncoder.AppendStep | adisi_utils/jsb_json_to_midi.py:37-46 | one time step appends its block |
| JsbEncoder.AppendChorale | adisi_utils/jsb_json_to_midi.py:31-53 | one sequence appends its encoding |
| JsbEncoder.AppendChorales | adisi_utils/jsb_json_to_midi.py:30-53 | the outer loop appends every sequence's encoding in order |
| JsbEncoder.JsbToMidi | adisi_utils/jsb_json_to_midi.py:7-53 | the whole encoder computes the track of the specification, or its error |
| JsbEncoder.StepBlockShape | adisi_utils/jsb_json_to_midi.py:37-46 | a step writes its offs ascending with velocity 0, then its ons ascending with velocity 64 |
| JsbEncoder.StepBlockDeltas | adisi_utils/jsb_json_to_midi.py:41-49 | only the first message of a step carries the pending delta |
| JsbEncoder.StepHeld | adisi_utils/jsb_json_to_midi.py:37-46 | a step that repeats the one held note writes nothing |
| JsbEncoder.PlayStep | adisi_utils/jsb_json_to_midi.py:37-48 | replaying a step's block turns the previous active set into the current one |
| JsbEncoder.PlayBody | adisi_utils/jsb_json_to_midi.py:34-49 | replaying the steps so far gives the active set |
| JsbEncoder.ChoraleSilent | adisi_utils/jsb_json_to_midi.py:30-53 | after a sequence's encoding nothing is left sounding |
| JsbEncoder.CountStep | adisi_utils/jsb_json_to_midi.py:37-46 | a step writes as many ons as it adds notes and as many offs as it removes |
| JsbEncoder.CountBody | adisi_utils/jsb_json_to_midi.py:34-49 | ons so far equal offs so far plus the notes still active |
| JsbEncoder.ChoraleBalanced | adisi_utils/jsb_json_to_midi.py:30-53 | each sequence has as many ons as offs |
| JsbEncoder.NotesDeltasKeys | adisi_utils/jsb_json_to_midi.py:40-46 | the deltas are 0 or a step; the notes are piano keys when the input notes are |
| JsbEncoder.StepDeltasKeys | adisi_utils/jsb_json_to_midi.py:35-49 | a step's messages have deltas 0 or a step and notes in 21..108 |
| JsbEncoder.ChoraleDeltasKeys | adisi_utils/jsb_json_to_midi.py:31-53 | the same for one sequence's encoding |
| JsbEncoder.AllDeltasKeys | adisi_utils/jsb_json_to_midi.py:30-53 | the same for all sequences |
| JsbEncoder.TrackShape | adisi_utils/jsb_json_to_midi.py:7-53 | a produced track comes from a non-zero tempo and starts with its tempo message; every delta is 0 or the step; every note after the first message is in 21..108 |
| JsbEncoder.HeldStepLosesTime | adisi_utils/jsb_json_to_midi.py:49 | as written, `[[60], [60], [62]]` at a step of 120 puts the off of 60 at tick 120 instead of 240 |
| JsbEncoder.FixedClock | adisi_utils/jsb_json_to_midi.py:49 | corrected encoder: the time written plus the time pending after step `i` is `i` steps |
| JsbEncoder.FixedStepTicks | adisi_utils/jsb_json_to_midi.py:49 | corrected encoder: the messages of step `i` extend the earlier ones and sit at tick `i * step` |
| JsbEncoder.FixedEndTicks | adisi_utils/jsb_json_to_midi.py:51-53 | corrected encoder: the closing offs sit at tick `n * step` |
| JsbEncoder.HeldStepKeepsTime | adisi_utils/jsb_json_to_midi.py:49 | corrected encoder: the same input puts the off of 60 at tick 240 |
| Experiment.TempoFrom | experiments/analyze_experiment.py:66-68 | no tempo iff the track has no `set_tempo`; otherwise the value of its first one |
| Experiment.TracksTempoFrom | experiments/analyze_experiment.py:65-69 | no tempo iff no track has a `set_tempo` |
| Experiment.TempoFirst | experiments/analyze_experiment.py:65-68 | the first `set_tempo`, in track order and then message order, gives the tempo |
| Experiment.GetTempo | experiments/analyze_experiment.py:62-69 | the nested scan returns the first tempo, or 500000 when there is none |
| Experiment.KeyOfLine | experiments/analyze_experiment.py:97-102 | a `Key:` line always gives a key or the missing-tonic error |
| Experiment.FindKey | experiments/analyze_experiment.py:96-103 | no key iff no line starts with `Key:` |
| Experiment.FindKeyFirst | experiments/analyze_experiment.py:96-102 | the first `Key:` line decides |
| Experiment.KeyLineRoundTrip | experiments/analyze_experiment.py:99-101 | the written `Key: tonic mode` line reads back as that tonic and mode |
| Experiment.KeyTonicOnly | experiments/analyze_experiment.py:101 | a line with only a tonic gives mode `major` |
| Experiment.KeyBlank | experiments/analyze_experiment.py:99-100 | a `Key:` line with nothing after it has no tonic (`parts[0]` raises) |
| Experiment.ReportKey | experiments/analyze_experiment.py:93-103 | round trip: the key written in a report header is the key parsed from it |
| Experiment.IdentifyChord | experiments/analyze_experiment.py:81-86 | no chord iff fewer than two notes; otherwise the analysis of the notes |
| Experiment.DigitsEnd | experiments/analyze_experiment.py:203 | `\d+` runs to the first non-digit |
| Experiment.CutTickFrom | experiments/analyze_experiment.py:203 | no tick iff `cut_tick_` followed by a digit occurs nowhere |
| Experiment.CadenceType | experiments/analyze_experiment.py:207 | `Strong Cadence` iff the tick is in the strong list, otherwise `Cadence` |
| Experiment.CutTickOfName | experiments/analyze_experiment.py:203-206 | `cut_tick_N` gives back `N` |
| Experiment.CutLabelOfList | experiments/analyze_experiment.py:203-207 | a directory `cut_tick_N` is labelled strong iff `N` is in the strong list written to the report |
| Text.Split | adisi_main.py:178 | `split(sep)`: at least one part, no part holds the separator, and the parts joined give the text |
| Text.SplitJoin | adisi_main.py:178 | splitting undoes joining of parts without the separator |
| Text.SplitOnce | adisi_utils/get_5_to_1_places.py:38 | `split(':', 1)`: two parts around the first separator, or the whole text |
| Text.StripPadded | adisi_main.py:181 | `strip()` removes exactly the surrounding white space |
| Text.Words | experiments/analyze_experiment.py:99 | `split()` yields only non-empty words without white space |
| Text.WordsOfPair | experiments/analyze_experiment.py:99-101 | `"a b".split()` is `[a, b]` |
| Text.NatToString | adisi_utils/get_chords_per_16th.py:108 | `str(n)`: digits, no leading zero, with value `n` |
| Text.ParseIntOfDigits | adisi_main.py:184 | `int(str(n)) == n` |
| Text.ParseIntOfNat | adisi_utils/get_5_to_1_places.py:43 | `int()` of `str(n)` with white space around it is `n` |
| Text.PadRight | adisi_main.py:152 | left justification keeps the text and pads with spaces to the width |
| Text.Lines | adisi_utils/get_5_to_1_places.py:35 | the lines of a file are non-empty and together are the text |
| Text.LinesOfConcat | adisi_utils/get_5_to_1_places.py:35 | text made of newline-terminated lines reads back as those lines |
| Sets.SortedElems | adisi_main.py:53 | `sorted(set)`: strictly increasing, of the set's size, with exactly its elements |
| Sets.AscendingIs | adisi_utils/jsb_json_to_midi.py:40 | the ascending sequence of a set is strictly increasing and holds exactly its elements |

## Left out

- File and MIDI I/O are not modelled: mido loading and saving, `open`, `os.remove`, `os.listdir`, JSON loading and every `print`. Tracks, lines, texts and JSON data are parameters.
- music21 is not modelled: key analysis, chordify, Roman numerals and chord names. The report writer takes the chord names and functions as rows. `Experiment.IdentifyChord` takes the analysis as a function parameter. `Experiment.KeyOfLine` accepts any tonic and mode because the `Key()` constructor's validation is library code.
- The minor-key skip of `save_harmonic_analysis` (adisi_main.py:85-87) is not modelled, because it depends on music21's key analysis.
- The `Rest` check (adisi_main.py:147-150) is not modelled. On the MIDI path it cannot be reached: a line is named `Rest` only when its sample is empty, and the gate at adisi_main.py:99-103 has already rejected every sample with fewer than three notes. On the MusicXML path it depends on music21's chordify.
- The MusicXML branch of `save_harmonic_analysis` is not modelled.
- The `Regular Cadences` line (adisi_main.py:292) is not modelled, because nothing reads it.
- Only the one regular-expression pattern used on each line is modelled, not a general regex engine.
- Sorting and directory-order code outside the core is not modelled: the directory listing, filtering and sorting of `cut_tick_` folders, and skipping a folder without a match.
- `Sampler.SortEvents`: the model does not state stability, only the key order and the permutation. Events with equal keys differ at most in pitch, and the replay's result does not depend on the order of equal-key events of different pitches.
- `Sampler.RoundHalfEven` and `Sampler.SampleGrid`: they compute in exact integers. `round(last_tick / (tpb / 4.0))` and `int(i * (tpb / 4.0))` are modelled as the exact quotients. Float rounding is not modelled; it differs only for tick counts far beyond any real MIDI file (around 2^50).
- Sampler.SoundingNotesPer16th and Sampler.SampleCount: with `ticks_per_beat == 0` the source raises ZeroDivisionError at adisi_main.py:22 and :39, even for a file with no events. The model's `requires ticksPerBeat > 0` excludes that input instead of modelling the error.
- `Cutter.CutMidi`: likewise, the cut tick `int(index * (tpb / 4.0))` is modelled as `(index * tpb) / 4`.
- `JsbEncoder.TempoMicros`: `int(60000000 / tempo)` is modelled as exact division truncated toward zero. The float quotient of Python is not modelled.
- The encoder does not model mido's range checks: a negative or too-large tempo, and notes outside 0..127.
- Resolutions other than quarter, eighth and sixteenth are not modelled: the source would raise `KeyError`, and the model has only those three.
- The JSB input is restricted to integers: time steps are integer pitches, where JSON could also hold floats.
- The corrected encoder `JsbEncoder.EncodeChoraleFixed` has only its timing proved: the tick of each step and the closing offs. Silence and balance are proved for the encoder as written, whose messages are the same; only the deltas differ.
- `isdigit()` and `int()` are modelled for ASCII digits only. Python also accepts other Unicode decimal digits.
- Files are read in text mode, which turns `\r\n` into `\n`; the model starts from that translated text.
- The chord namer's `print` (adisi_utils/get_chords_per_16th.py:82) and `_extract_chords` (float milliseconds through `tick_to_ms`) are not modelled. The writers take the chord list they would produce.
- A last known quirk is stated, not corrected (`ReadBack.SharpElevenMisread`). A C major chord with a sharp eleventh is named `C#11`, and the V→I scanner reads it back as a C-sharp chord. Other roots fare similarly: `E#11` is skipped. The model keeps this behaviour of both scripts.
- `ChordFile.IsMajorChord`: its own contract states only that an empty quality is major. The full characterisation is `ChordFile.IsMajorChordIff`.
- State is not modelled as objects. The imperative loops are methods on sequence and set values, because the source keeps no object state beyond local variables. The `active_notes` dictionary is an insertion-ordered sequence of entries with distinct keys.

## Findings

| source | as written | input that shows it | evidently intended | confidence | as-written member | corrected member |
|---|---|---|---|---|---|---|
| adisi_main.py:369-371 | a `note_on` exactly at the cut is dropped with its delta, so the messages after it, and the synthesized offs, come out earlier than their ticks | On a at tick 0, On b at tick `d`, Offs at `2d` and `3d`, cut at `d` (for example `d` = 10): the off of a is written at tick 0 instead of `d` | carry the dropped message's delta over to the next kept message, so every kept message and every synthesized off keeps its tick | not executed | Cutter.OnsetAtCutLosesTime | Cutter.FixedKeepsTicks |
| adisi_utils/jsb_json_to_midi.py:49 | `current_time` is set to one step after every step, so a step that writes nothing loses its time | `[[60], [60], [62]]` at the sixteenth resolution (120 ticks a step): the off of 60 lands at tick 120 instead of 240 | add one step to the time still pending, so each step's messages sit at its own tick | not executed | JsbEncoder.HeldStepLosesTime | JsbEncoder.FixedStepTicks |
