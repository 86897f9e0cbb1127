/**
  How `get_5_to_1_places.py` reads one line of a chord file (`N: chord`):
  the index, the root, the bass and the chord text before any `/`, or the
  reason the line is skipped or stops the script.
*/
module ChordFile {
  import opened Wrappers
  import opened Text
  import ChordNamer

  /** `NOTES`, the same twelve names the chord namer uses. */
  const NoteNames: seq<string> := ChordNamer.NoteNames

  /** Where the quality starts: after the letter and an optional `#`. */
  function Quality(base: string): string {
    if |base| <= 1 then ""
    else if base[1] == '#' then base[2..]
    else base[1..]
  }

  /** `_is_major_chord`: anything but a minor, diminished, augmented or suspended quality. */
  function IsMajorChord(base: string): (r: bool)
    ensures Quality(base) == "" ==> r
  {
    if |base| <= 1 then true
    else
      var q := Quality(base);
      if q == "" then true
      else if StartsWith(q, "m") && !StartsWith(q, "maj") then false
      else if StartsWith(q, "dim") || StartsWith(q, "aug") then false
      else if StartsWith(q, "sus") then false
      else true
  }

  /**
    A chord text is not major exactly when its quality starts with `m` but
    not `maj`, or with `dim`, `aug` or `sus`; a bare letter is major.
  */
  lemma IsMajorChordIff(base: string)
    ensures |base| <= 1 ==> IsMajorChord(base)
    ensures var q := Quality(base);
            !IsMajorChord(base) <==>
              (StartsWith(q, "m") && !StartsWith(q, "maj")) || StartsWith(q, "dim")
              || StartsWith(q, "aug") || StartsWith(q, "sus")
  {
  }

  /** The first letter, and a `#` when the next character is one. */
  function NoteAt(s: string): string
    requires s != []
  {
    [s[0]] + (if |s| > 1 && s[1] == '#' then "#" else "")
  }

  /** What the loop makes of one line. */
  datatype Reading =
    | Skipped
    | Crash
    | Chord(sixteenth: int, root: string, bass: string, base: string)

  /**
    The index and chord text of a line: `None` for a line without a colon
    or whose index is not an integer.
  */
  function LineFields(line: string): Option<(int, string)> {
    if ':' !in line then None
    else
      var parts := SplitOnce(Strip(line), ':');
      if |parts| != 2 then None
      else
        var index := ParseInt(parts[0]);
        if index.None? then None else Some((index.value, Strip(parts[1])))
  }

  /**
    The chord text of a line with index `n`. `rest`, a chord whose first
    letter is not A-G, or a root or bass that is not one of the twelve names
    are skipped. An empty chord before the `/`, or an empty bass after it,
    makes `chord_base[0]` or `bass_str[0]` raise `IndexError`.
  */
  function ReadChord(n: int, chord: string): (r: Reading)
    ensures r.Chord? ==> r.sixteenth == n && IsNote(r.root) && IsNote(r.bass) && r.base != []
  {
    if chord == "rest" then Skipped
    else
      var chordParts := Split(chord, '/');
      var base := chordParts[0];
      if base == [] then Crash
      else if base[0] !in "ABCDEFG" then Skipped
      else
        var root := NoteAt(base);
        if root !in NoteNames then Skipped
        else if |chordParts| > 1 then
          var bassText := Strip(chordParts[1]);
          if bassText == [] then Crash
          else
            var bass := NoteAt(bassText);
            if bass !in NoteNames then Skipped
            else Chord(n, root, bass, base)
        else Chord(n, root, root, base)
  }

  /** One pass of the loop body. */
  function ReadLine(line: string): (r: Reading)
    ensures r.Chord? ==> Read(r)
  {
    var fields := LineFields(line);
    if fields.None? then Skipped else ReadChord(fields.value.0, fields.value.1)
  }

  predicate IsNote(name: string) {
    name in NoteNames
  }

  /**
    `NOTES.index(name)`: the first position of a note name in `NOTES`. For a
    name that is not there the result is 12, where Python raises
    `ValueError`; the script only asks for names it has checked.
  */
  function NoteIndex(name: string): (k: nat)
    ensures k <= 12 && (k < 12 ==> NoteNames[k] == name)
    ensures forall j :: 0 <= j < k ==> NoteNames[j] != name
  {
    IndexFrom(NoteNames, name, 0)
  }

  predicate Read(c: Reading) {
    c.Chord? && IsNote(c.root) && IsNote(c.bass) && c.base != []
  }
}
