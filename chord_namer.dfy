/**
  The rule-based chord namer of `get_chords_per_16th.py`: a set of MIDI
  pitches is reduced to pitch classes, every pitch class is tried as a root
  in ascending order, and the first root whose intervals match a chord
  shape names the chord, with a slash bass when the lowest note is not the
  root.

  The shapes are kept as a datatype, `Shape`, and rendered to the names the
  code builds with f-strings; the precedence rules are stated on `Classify`.
*/
module ChordNamer {
  import opened Wrappers
  import opened Sets
  import opened Text

  /** `NOTES`. */
  const NoteNames: seq<string> := ["C", "C#", "D", "D#", "E", "F", "F#", "G", "G#", "A", "A#", "B"]

  type PitchClass = k: int | 0 <= k < 12

  function Name(pc: PitchClass): string {
    NoteNames[pc]
  }

  /** `_get_intervals(root_pc)`: the pitch class a given number of semitones above the root. */
  datatype Intervals = Intervals(
    m2: PitchClass, M2: PitchClass, m3: PitchClass, M3: PitchClass, p4: PitchClass, d5: PitchClass,
    p5: PitchClass, a5: PitchClass, d7: PitchClass, m7: PitchClass, M7: PitchClass)

  function Above(root: int, semitones: int): PitchClass {
    (root + semitones) % 12
  }

  function GetIntervals(root: int): Intervals {
    Intervals(Above(root, 1), Above(root, 2), Above(root, 3), Above(root, 4), Above(root, 5), Above(root, 6),
              Above(root, 7), Above(root, 8), Above(root, 9), Above(root, 10), Above(root, 11))
  }

  /** The eleven intervals in the order m2 .. M7. */
  function IntervalList(iv: Intervals): seq<PitchClass> {
    [iv.m2, iv.M2, iv.m3, iv.M3, iv.p4, iv.d5, iv.p5, iv.a5, iv.d7, iv.m7, iv.M7]
  }

  /**
    Interval `k` of the list is `k + 1` semitones above the root, so the eleven
    intervals and the root's own pitch class are twelve different pitch classes.
  */
  lemma IntervalsDistinct(root: int)
    ensures forall k :: 0 <= k < 11 ==> IntervalList(GetIntervals(root))[k] == (root + k + 1) % 12
    ensures forall i, j :: 0 <= i < j < 11 ==> IntervalList(GetIntervals(root))[i] != IntervalList(GetIntervals(root))[j]
    ensures forall k :: 0 <= k < 11 ==> IntervalList(GetIntervals(root))[k] != root % 12
  {
    var l := IntervalList(GetIntervals(root));
    forall i, j | 0 <= i < j < 11
      ensures l[i] != l[j]
    {
      SemitonesApart(root, i + 1, j + 1);
    }
    forall k | 0 <= k < 11
      ensures l[k] != root % 12
    {
      SemitonesApart(root, 0, k + 1);
    }
  }

  lemma SemitonesApart(root: int, a: int, b: int)
    requires 0 <= a < b < 12
    ensures (root + a) % 12 != (root + b) % 12
  {
    var r := root % 12;
    assert root == 12 * (root / 12) + r;
    assert (root + a) % 12 == (r + a) % 12;
    assert (root + b) % 12 == (r + b) % 12;
  }

  /** The shapes `_find_chord_type` recognises, with their seventh and tensions. */
  datatype Seventh = NoSeventh | Minor7 | Major7

  datatype Shape =
    | Sus2(seventh: bool)
    | Sus4(seventh: bool)
    | Major(ext: Seventh, tensions: seq<string>)
    | Minor(minor7: bool, tensions: seq<string>)
    | Dim7
    | HalfDim
    | Dim
    | Aug

  /** The text after the root name. */
  function Suffix(s: Shape): string {
    match s
    case Sus2(seventh) => "sus2" + (if seventh then "7" else "")
    case Sus4(seventh) => "sus4" + (if seventh then "7" else "")
    case Major(ext, tensions) =>
      (match ext case Major7 => "maj7" case Minor7 => "7" case NoSeventh => "") + Concat(tensions)
    case Minor(minor7, tensions) => "m" + (if minor7 then "7" else "") + Concat(tensions)
    case Dim7 => "dim7"
    case HalfDim => "m7b5"
    case Dim => "dim"
    case Aug => "aug"
  }

  /** `_get_tensions`: b9, #11, b13, each when its intervals are present, in that order. */
  function Tensions(pc: set<int>, iv: Intervals, has3rd: bool): (ts: seq<string>)
    ensures "b9" in ts <==> iv.m2 in pc
    ensures "#11" in ts <==> iv.d5 in pc && has3rd && iv.p5 in pc
    ensures "b13" in ts <==> iv.a5 in pc && (iv.m7 in pc || iv.M7 in pc)
    ensures forall i :: 0 <= i < |ts| ==> ts[i] in ["b9", "#11", "b13"]
    ensures forall i, j :: 0 <= i < j < |ts| ==> Rank(ts[i]) < Rank(ts[j])
  {
    (if iv.m2 in pc then ["b9"] else [])
    + (if iv.d5 in pc && has3rd && iv.p5 in pc then ["#11"] else [])
    + (if iv.a5 in pc && (iv.m7 in pc || iv.M7 in pc) then ["b13"] else [])
  }

  /** The position of a tension in the b9, #11, b13 order. */
  function Rank(t: string): nat {
    if t == "b9" then 0 else if t == "#11" then 1 else 2
  }

  /** `_check_sus_chord`. */
  function CheckSus(pc: set<int>, iv: Intervals): Option<Shape> {
    if iv.M2 in pc && iv.p5 in pc then Some(Sus2(iv.m7 in pc))
    else if iv.p4 in pc && iv.p5 in pc then Some(Sus4(iv.m7 in pc))
    else None
  }

  /** `_check_major_chord`. */
  function CheckMajor(pc: set<int>, iv: Intervals, tensions: seq<string>): Option<Shape> {
    if iv.M3 in pc && iv.p5 in pc then
      Some(Major(if iv.M7 in pc then Major7 else if iv.m7 in pc then Minor7 else NoSeventh, tensions))
    else None
  }

  /** `_check_minor_chord`. */
  function CheckMinor(pc: set<int>, iv: Intervals, tensions: seq<string>): Option<Shape> {
    if iv.m3 in pc && iv.p5 in pc then Some(Minor(iv.m7 in pc, tensions)) else None
  }

  /** `_check_dim_chord`: the tensions are not used. */
  function CheckDim(pc: set<int>, iv: Intervals): Option<Shape> {
    if iv.m3 in pc && iv.d5 in pc then
      Some(if iv.d7 in pc then Dim7 else if iv.m7 in pc then HalfDim else Dim)
    else None
  }

  /** `_check_aug_chord`: the tensions are not used. */
  function CheckAug(pc: set<int>, iv: Intervals): Option<Shape> {
    if iv.M3 in pc && iv.a5 in pc then Some(Aug) else None
  }

  /** `_find_chord_type` before the name is rendered. */
  function Classify(root: int, pc: set<int>): Option<Shape>
  {
    var iv := GetIntervals(root);
    var has3rd := iv.m3 in pc || iv.M3 in pc;
    var sus := CheckSus(pc, iv);
    if !has3rd && sus.Some? then sus
    else
      var tensions := Tensions(pc, iv, has3rd);
      var major := CheckMajor(pc, iv, tensions);
      if major.Some? then major
      else
        var minor := CheckMinor(pc, iv, tensions);
        if minor.Some? then minor
        else
          var dim := CheckDim(pc, iv);
          if dim.Some? then dim
          else CheckAug(pc, iv)
  }

  /**
    Suspended shapes are tried only without a third, sus2 before sus4; then
    major, minor, diminished and augmented, in that order; the tensions go
    only to major and minor shapes.
  */
  lemma ClassifyPrecedence(root: int, pc: set<int>)
    ensures var iv := GetIntervals(root);
            var has3rd := iv.m3 in pc || iv.M3 in pc;
            var sus := !has3rd && iv.p5 in pc && (iv.M2 in pc || iv.p4 in pc);
            var major := iv.M3 in pc && iv.p5 in pc;
            var minor := iv.m3 in pc && iv.p5 in pc;
            var dim := iv.m3 in pc && iv.d5 in pc;
            var aug := iv.M3 in pc && iv.a5 in pc;
            && (Classify(root, pc).Some? && Classify(root, pc).value.Sus2? <==> !has3rd && iv.M2 in pc && iv.p5 in pc)
            && (Classify(root, pc).Some? && (Classify(root, pc).value.Sus2? || Classify(root, pc).value.Sus4?) <==> sus)
            && (Classify(root, pc).Some? && Classify(root, pc).value.Major? <==> major)
            && (Classify(root, pc).Some? && Classify(root, pc).value.Minor? <==> minor && !major)
            && (Classify(root, pc).Some? && (Classify(root, pc).value.Dim7? || Classify(root, pc).value.HalfDim? || Classify(root, pc).value.Dim?) <==> dim && !major && !minor)
            && (Classify(root, pc).Some? && Classify(root, pc).value.Aug? <==> aug && !major && !minor && !dim)
            && (Classify(root, pc).None? <==> !sus && !major && !minor && !dim && !aug)
            && (Classify(root, pc).Some? && (Classify(root, pc).value.Major? || Classify(root, pc).value.Minor?) ==> Classify(root, pc).value.tensions == Tensions(pc, iv, has3rd))
  {
  }

  /** `_find_chord_type`: the chord's name at this root, if any shape matches. */
  function FindChordType(root: PitchClass, pc: set<int>): Option<string> {
    var s := Classify(root, pc);
    if s.Some? then Some(Name(root) + Suffix(s.value)) else None
  }

  /** The pitch classes of a set of MIDI notes: `{n % 12 for n in notes}`. */
  function PitchClasses(notes: set<int>): (pc: set<int>)
    ensures forall p :: p in pc ==> 0 <= p < 12
    ensures forall n :: n in notes ==> n % 12 in pc
    ensures forall p :: p in pc ==> exists n :: n in notes && n % 12 == p
  {
    set n | n in notes :: n % 12
  }

  /** The first root, among `roots`, at which a shape matches: the root and the chord name. */
  function FirstMatch(roots: seq<int>, pc: set<int>): Option<(PitchClass, string)>
    requires forall i :: 0 <= i < |roots| ==> 0 <= roots[i] < 12
  {
    if roots == [] then None
    else
      var c := FindChordType(roots[0], pc);
      if c.Some? then Some((roots[0], c.value)) else FirstMatch(roots[1..], pc)
  }

  /** A match `FirstMatch` finds is at the first root that names a chord. */
  lemma {:induction false} FirstMatchAt(roots: seq<int>, pc: set<int>) returns (i: nat)
    requires forall i :: 0 <= i < |roots| ==> 0 <= roots[i] < 12
    requires FirstMatch(roots, pc).Some?
    ensures i < |roots| && roots[i] == FirstMatch(roots, pc).value.0
    ensures forall j :: 0 <= j < i ==> FindChordType(roots[j], pc).None?
    ensures FindChordType(roots[i], pc) == Some(FirstMatch(roots, pc).value.1)
  {
    if FindChordType(roots[0], pc).None? {
      var k := FirstMatchAt(roots[1..], pc);
      i := k + 1;
      forall j | 0 <= j < i
        ensures FindChordType(roots[j], pc).None?
      {
        if j > 0 { assert roots[j] == roots[1..][j - 1]; }
      }
    } else {
      i := 0;
    }
  }

  /** `FirstMatch` fails only when no root names a chord. */
  lemma {:induction false} FirstMatchNone(roots: seq<int>, pc: set<int>)
    requires forall i :: 0 <= i < |roots| ==> 0 <= roots[i] < 12
    requires FirstMatch(roots, pc).None?
    ensures forall i :: 0 <= i < |roots| ==> FindChordType(roots[i], pc).None?
  {
    if roots != [] {
      FirstMatchNone(roots[1..], pc);
      forall i | 0 <= i < |roots|
        ensures FindChordType(roots[i], pc).None?
      {
        if i > 0 { assert roots[i] == roots[1..][i - 1]; }
      }
    }
  }

  /** The name `_notes_to_chord` gives pitch classes `pc` over bass pitch class `bass`. */
  function NameOver(pc: set<int>, bass: PitchClass): string
    requires forall p :: p in pc ==> 0 <= p < 12
  {
    var roots := SortedElems(pc);
    assert forall i :: 0 <= i < |roots| ==> roots[i] in pc;
    var m := FirstMatch(roots, pc);
    if m.Some? then
      if bass != m.value.0 then m.value.1 + "/" + Name(bass) else m.value.1
    else Name(bass)
  }

  /**
    `_notes_to_chord`: None for no notes or more than four; otherwise the
    first chord found over the roots in ascending order, with `/bass` when
    the lowest note's pitch class differs from the root, or else the bass's
    own name.
  */
  function NotesToChord(notes: set<int>): (r: Option<string>)
    ensures r.None? <==> notes == {} || |notes| > 4
  {
    if notes == {} || |notes| > 4 then None
    else Some(NameOver(PitchClasses(notes), Min(notes) % 12))
  }

  /** The lowest pitch class of `pc` at which a shape matches names the chord when there is one. */
  predicate NamedAt(pc: set<int>, bass: PitchClass, root: PitchClass)
    requires forall p :: p in pc ==> 0 <= p < 12
  {
    && root in pc && Classify(root, pc).Some?
    && (forall p: PitchClass :: p in pc && p < root ==> Classify(p, pc).None?)
    && NameOver(pc, bass) == Name(root) + Suffix(Classify(root, pc).value)
                             + (if bass != root then "/" + Name(bass) else "")
  }

  lemma LowerRootsFail(pc: set<int>, roots: seq<int>, i: nat)
    requires forall p :: p in pc ==> 0 <= p < 12
    requires StrictlyIncreasing(roots) && forall x :: x in roots <==> x in pc
    requires forall j :: 0 <= j < |roots| ==> 0 <= roots[j] < 12
    requires i < |roots| && forall j :: 0 <= j < i ==> FindChordType(roots[j], pc).None?
    ensures forall p: PitchClass :: p in pc && p < roots[i] ==> Classify(p, pc).None?
  {
    forall p: PitchClass | p in pc && p < roots[i]
      ensures Classify(p, pc).None?
    {
      var j :| 0 <= j < |roots| && roots[j] == p;
      assert j < i;
    }
  }

  /** `NameOver` in terms of the first match: its chord name, with the bass after a slash when it is not the root. */
  lemma NameOfMatch(pc: set<int>, roots: seq<int>, bass: PitchClass)
    requires forall p :: p in pc ==> 0 <= p < 12
    requires roots == SortedElems(pc) && forall i :: 0 <= i < |roots| ==> 0 <= roots[i] < 12
    requires FirstMatch(roots, pc).Some?
    ensures var m := FirstMatch(roots, pc).value;
            NameOver(pc, bass) == m.1 + (if bass != m.0 then "/" + Name(bass) else "")
  {
    var m := FirstMatch(roots, pc).value;
    if bass != m.0 {
      assert m.1 + "/" + Name(bass) == m.1 + ("/" + Name(bass));
    } else {
      assert m.1 + "" == m.1;
    }
  }

  /** The root `FirstMatch` finds in the sorted pitch classes names the chord. */
  lemma MatchIsNamed(pc: set<int>, roots: seq<int>, bass: PitchClass, i: nat)
    requires forall p :: p in pc ==> 0 <= p < 12
    requires roots == SortedElems(pc) && forall j :: 0 <= j < |roots| ==> 0 <= roots[j] < 12
    requires FirstMatch(roots, pc).Some? && i < |roots| && roots[i] == FirstMatch(roots, pc).value.0
    requires forall j :: 0 <= j < i ==> FindChordType(roots[j], pc).None?
    requires FindChordType(roots[i], pc) == Some(FirstMatch(roots, pc).value.1)
    ensures NamedAt(pc, bass, roots[i])
  {
    LowerRootsFail(pc, roots, i);
    NameOfMatch(pc, roots, bass);
  }

  /** Without a match, no pitch class of the chord matches a shape. */
  lemma NoMatchAnywhere(pc: set<int>, roots: seq<int>)
    requires roots == SortedElems(pc) && forall j :: 0 <= j < |roots| ==> 0 <= roots[j] < 12
    requires forall j :: 0 <= j < |roots| ==> FindChordType(roots[j], pc).None?
    ensures forall p: PitchClass :: p in pc ==> Classify(p, pc).None?
  {
    forall p: PitchClass | p in pc
      ensures Classify(p, pc).None?
    {
      var j :| 0 <= j < |roots| && roots[j] == p;
      assert FindChordType(roots[j], pc).None?;
    }
  }

  /**
    The name is settled by the lowest matching root: every lower pitch class
    of the chord matches no shape. When no root matches, the bass is named.
  */
  lemma NameOverFirstMatch(pc: set<int>, bass: PitchClass)
    requires forall p :: p in pc ==> 0 <= p < 12
    ensures || (exists root: PitchClass :: NamedAt(pc, bass, root))
            || ((forall p: PitchClass :: p in pc ==> Classify(p, pc).None?) && NameOver(pc, bass) == Name(bass))
  {
    var roots := SortedElems(pc);
    assert forall i :: 0 <= i < |roots| ==> roots[i] in pc;
    if FirstMatch(roots, pc).Some? {
      var i := FirstMatchAt(roots, pc);
      MatchIsNamed(pc, roots, bass, i);
      var root: PitchClass := roots[i];
      assert NamedAt(pc, bass, root);
    } else {
      FirstMatchNone(roots, pc);
      NoMatchAnywhere(pc, roots);
    }
  }

  /** A single note is named by its own pitch class. */
  lemma SingleNote(n: int)
    ensures NotesToChord({n}) == Some(Name(n % 12))
  {
    var pc := PitchClasses({n});
    assert pc == {n % 12};
    assert Min({n}) == n;
    forall p: PitchClass | p in pc
      ensures Classify(p, pc).None?
    {
      IntervalsDistinct(p);
      var l := IntervalList(GetIntervals(p));
      assert forall k :: 0 <= k < 11 ==> l[k] !in pc;
    }
    NameOverFirstMatch(pc, n % 12);
  }

  // ---------------------------------------------------------------------
  // Worked examples
  // ---------------------------------------------------------------------

  /** When the lowest pitch class names a chord `c`, that is the name, with the bass after a slash. */
  lemma NameAtFirstRoot(pc: set<int>, roots: seq<int>, bass: PitchClass, c: string)
    requires forall p :: p in pc ==> 0 <= p < 12
    requires StrictlyIncreasing(roots) && forall x :: x in roots <==> x in pc
    requires roots != [] && 0 <= roots[0] < 12 && FindChordType(roots[0], pc) == Some(c)
    ensures NameOver(pc, bass) == c + (if bass != roots[0] then "/" + Name(bass) else "")
  {
    SortedElemsIs(pc, roots);
    assert roots[0] in pc;
    if bass == roots[0] {
      assert c + "" == c;
    }
  }

  lemma IntervalsOfC()
    ensures GetIntervals(0) == Intervals(1, 2, 3, 4, 5, 6, 7, 8, 9, 10, 11)
  {
  }

  /** `_notes_to_chord` of one to four notes with the given pitch classes and lowest note. */
  lemma NotesOver(notes: set<int>, pc: set<int>, low: int)
    requires 0 < |notes| <= 4 && PitchClasses(notes) == pc
    requires low in notes && forall n :: n in notes ==> low <= n
    ensures NotesToChord(notes) == Some(NameOver(pc, low % 12))
  {
    var m := Min(notes);
    assert m <= low && low <= m;
  }

  /** C, E and G with nothing that adds a seventh or a tension: a plain C major triad. */
  lemma MajorAtC(pc: set<int>)
    requires 0 in pc && 4 in pc && 7 in pc
    requires 1 !in pc && 3 !in pc && 6 !in pc && 8 !in pc && 10 !in pc && 11 !in pc
    ensures FindChordType(0, pc) == Some("C")
  {
    IntervalsOfC();
    var iv := GetIntervals(0);
    assert Tensions(pc, iv, true) == [];
    assert CheckMajor(pc, iv, []) == Some(Major(NoSeventh, []));
    assert Classify(0, pc) == Some(Major(NoSeventh, []));
    assert Name(0) + Suffix(Major(NoSeventh, [])) == "C" by {
      assert Concat([]) == "";
      assert Name(0) == "C" && Suffix(Major(NoSeventh, [])) == "";
      assert "C" + "" == "C";
    }
  }

  lemma MinorAtC(pc: set<int>)
    requires pc == {0, 3, 7}
    ensures FindChordType(0, pc) == Some("Cm")
  {
    IntervalsOfC();
    assert Tensions(pc, GetIntervals(0), true) == [];
    assert CheckMajor(pc, GetIntervals(0), []) == None;
    assert Classify(0, pc) == Some(Minor(false, []));
    assert Name(0) + Suffix(Minor(false, [])) == "Cm" by {
      assert Name(0) == "C" && Suffix(Minor(false, [])) == "m";
      assert "C" + "m" == "Cm";
    }
  }

  /** No fifth, so neither major nor minor. */
  lemma DimAtC(pc: set<int>)
    requires pc == {0, 3, 6}
    ensures FindChordType(0, pc) == Some("Cdim")
  {
    IntervalsOfC();
    assert Tensions(pc, GetIntervals(0), true) == [];
    assert CheckMajor(pc, GetIntervals(0), []) == None;
    assert CheckMinor(pc, GetIntervals(0), []) == None;
    assert Classify(0, pc) == Some(Dim);
    assert Name(0) + Suffix(Dim) == "Cdim" by {
      assert Name(0) == "C" && Suffix(Dim) == "dim";
      assert "C" + "dim" == "Cdim";
    }
  }

  lemma AugAtC(pc: set<int>)
    requires pc == {0, 4, 8}
    ensures FindChordType(0, pc) == Some("Caug")
  {
    IntervalsOfC();
    assert Tensions(pc, GetIntervals(0), true) == [];
    assert CheckMajor(pc, GetIntervals(0), []) == None;
    assert CheckMinor(pc, GetIntervals(0), []) == None;
    assert CheckDim(pc, GetIntervals(0)) == None;
    assert Classify(0, pc) == Some(Aug);
    assert Name(0) + Suffix(Aug) == "Caug" by {
      assert Name(0) == "C" && Suffix(Aug) == "aug";
      assert "C" + "aug" == "Caug";
    }
  }

  lemma Sus2AtC(pc: set<int>)
    requires pc == {0, 2, 7}
    ensures FindChordType(0, pc) == Some("Csus2")
  {
    IntervalsOfC();
    assert CheckSus(pc, GetIntervals(0)) == Some(Sus2(false));
    assert Classify(0, pc) == Some(Sus2(false));
    assert Name(0) + Suffix(Sus2(false)) == "Csus2" by {
      assert Name(0) == "C" && Suffix(Sus2(false)) == "sus2";
      assert "C" + "sus2" == "Csus2";
    }
  }

  lemma Dim7AtC(pc: set<int>)
    requires pc == {0, 3, 6, 9}
    ensures FindChordType(0, pc) == Some("Cdim7")
  {
    IntervalsOfC();
    assert Tensions(pc, GetIntervals(0), true) == [];
    assert CheckMajor(pc, GetIntervals(0), []) == None;
    assert CheckMinor(pc, GetIntervals(0), []) == None;
    assert Classify(0, pc) == Some(Dim7);
    assert Name(0) + Suffix(Dim7) == "Cdim7" by {
      assert Name(0) == "C" && Suffix(Dim7) == "dim7";
      assert "C" + "dim7" == "Cdim7";
    }
  }

  /** A major triad with the augmented fourth: the tension #11 follows the root name directly. */
  lemma SharpElevenAtC(pc: set<int>)
    requires pc == {0, 4, 6, 7}
    ensures FindChordType(0, pc) == Some("C#11")
  {
    IntervalsOfC();
    var iv := GetIntervals(0);
    assert Tensions(pc, iv, true) == ["#11"];
    assert CheckMajor(pc, iv, ["#11"]) == Some(Major(NoSeventh, ["#11"]));
    assert Classify(0, pc) == Some(Major(NoSeventh, ["#11"]));
    assert Name(0) + Suffix(Major(NoSeventh, ["#11"])) == "C#11" by {
      assert Concat(["#11"]) == "#11" + Concat([]);
      assert Concat([]) == "";
      assert Name(0) == "C" && Suffix(Major(NoSeventh, ["#11"])) == "#11";
      assert "C" + "#11" == "C#11";
    }
  }

  lemma CMajorName(pc: set<int>)
    requires pc == {0, 4, 7}
    ensures NameOver(pc, 0) == "C"
  {
    assert StrictlyIncreasing([0, 4, 7]) && forall x :: x in [0, 4, 7] <==> x in pc;
    MajorAtC(pc);
    NameAtFirstRoot(pc, [0, 4, 7], 0, "C");
  }

  lemma CMajor(notes: set<int>)
    requires notes == {60, 64, 67}
    ensures NotesToChord(notes) == Some("C")
  {
    var pc := PitchClasses(notes);
    assert pc == {0, 4, 7};
    NotesOver(notes, pc, 60);
    CMajorName(pc);
  }

  lemma CSharpElevenName(pc: set<int>)
    requires pc == {0, 4, 6, 7}
    ensures NameOver(pc, 0) == "C#11"
  {
    assert StrictlyIncreasing([0, 4, 6, 7]) && forall x :: x in [0, 4, 6, 7] <==> x in pc;
    SharpElevenAtC(pc);
    NameAtFirstRoot(pc, [0, 4, 6, 7], 0, "C#11");
  }

  /** C, E, F# and G are named `C#11`. */
  lemma CSharpEleven(notes: set<int>)
    requires notes == {60, 64, 66, 67}
    ensures NotesToChord(notes) == Some("C#11")
  {
    var pc := PitchClasses(notes);
    assert pc == {0, 4, 6, 7};
    NotesOver(notes, pc, 60);
    CSharpElevenName(pc);
  }

  lemma CMinorName(pc: set<int>)
    requires pc == {0, 3, 7}
    ensures NameOver(pc, 0) == "Cm"
  {
    assert StrictlyIncreasing([0, 3, 7]) && forall x :: x in [0, 3, 7] <==> x in pc;
    MinorAtC(pc);
    NameAtFirstRoot(pc, [0, 3, 7], 0, "Cm");
  }

  lemma CMinor(notes: set<int>)
    requires notes == {60, 63, 67}
    ensures NotesToChord(notes) == Some("Cm")
  {
    var pc := PitchClasses(notes);
    assert pc == {0, 3, 7};
    NotesOver(notes, pc, 60);
    CMinorName(pc);
  }

  lemma CDimName(pc: set<int>)
    requires pc == {0, 3, 6}
    ensures NameOver(pc, 0) == "Cdim"
  {
    assert StrictlyIncreasing([0, 3, 6]) && forall x :: x in [0, 3, 6] <==> x in pc;
    DimAtC(pc);
    NameAtFirstRoot(pc, [0, 3, 6], 0, "Cdim");
  }

  lemma CDim(notes: set<int>)
    requires notes == {60, 63, 66}
    ensures NotesToChord(notes) == Some("Cdim")
  {
    var pc := PitchClasses(notes);
    assert pc == {0, 3, 6};
    NotesOver(notes, pc, 60);
    CDimName(pc);
  }

  lemma CAugName(pc: set<int>)
    requires pc == {0, 4, 8}
    ensures NameOver(pc, 0) == "Caug"
  {
    assert StrictlyIncreasing([0, 4, 8]) && forall x :: x in [0, 4, 8] <==> x in pc;
    AugAtC(pc);
    NameAtFirstRoot(pc, [0, 4, 8], 0, "Caug");
  }

  lemma CAug(notes: set<int>)
    requires notes == {60, 64, 68}
    ensures NotesToChord(notes) == Some("Caug")
  {
    var pc := PitchClasses(notes);
    assert pc == {0, 4, 8};
    NotesOver(notes, pc, 60);
    CAugName(pc);
  }

  lemma CSus2Name(pc: set<int>)
    requires pc == {0, 2, 7}
    ensures NameOver(pc, 0) == "Csus2"
  {
    assert StrictlyIncreasing([0, 2, 7]) && forall x :: x in [0, 2, 7] <==> x in pc;
    Sus2AtC(pc);
    NameAtFirstRoot(pc, [0, 2, 7], 0, "Csus2");
  }

  lemma CSus2(notes: set<int>)
    requires notes == {60, 62, 67}
    ensures NotesToChord(notes) == Some("Csus2")
  {
    var pc := PitchClasses(notes);
    assert pc == {0, 2, 7};
    NotesOver(notes, pc, 60);
    CSus2Name(pc);
  }

  lemma CDim7Name(pc: set<int>)
    requires pc == {0, 3, 6, 9}
    ensures NameOver(pc, 0) == "Cdim7"
  {
    assert StrictlyIncreasing([0, 3, 6, 9]) && forall x :: x in [0, 3, 6, 9] <==> x in pc;
    Dim7AtC(pc);
    NameAtFirstRoot(pc, [0, 3, 6, 9], 0, "Cdim7");
  }

  lemma CDim7(notes: set<int>)
    requires notes == {60, 63, 66, 69}
    ensures NotesToChord(notes) == Some("Cdim7")
  {
    var pc := PitchClasses(notes);
    assert pc == {0, 3, 6, 9};
    NotesOver(notes, pc, 60);
    CDim7Name(pc);
  }

  lemma SlashNameG()
    ensures "C" + "/" + Name(7) == "C/G"
  {
    assert Name(7) == "G";
    assert "C" + "/" + "G" == "C/G";
  }

  /** A C major triad over a low G is "C/G". */
  lemma COverGName(pc: set<int>)
    requires pc == {0, 4, 7}
    ensures NameOver(pc, 7) == "C/G"
  {
    assert StrictlyIncreasing([0, 4, 7]) && forall x :: x in [0, 4, 7] <==> x in pc;
    MajorAtC(pc);
    SlashNameG();
    NameAtFirstRoot(pc, [0, 4, 7], 7, "C");
  }

  lemma COverG(notes: set<int>)
    requires notes == {55, 60, 64, 67}
    ensures NotesToChord(notes) == Some("C/G")
  {
    var pc := PitchClasses(notes);
    assert pc == {0, 4, 7};
    NotesOver(notes, pc, 55);
    COverGName(pc);
  }

  lemma SlashNameA()
    ensures "C" + "/" + Name(9) == "C/A"
  {
    assert Name(9) == "A";
    assert "C" + "/" + "A" == "C/A";
  }

  /**
    C E G A is not named "Am7" although it spells one: the roots are tried
    from C upwards, so C major over a low A, "C/A", wins.
  */
  lemma COverAName(pc: set<int>)
    requires pc == {0, 4, 7, 9}
    ensures NameOver(pc, 9) == "C/A"
  {
    assert StrictlyIncreasing([0, 4, 7, 9]) && forall x :: x in [0, 4, 7, 9] <==> x in pc;
    MajorAtC(pc);
    SlashNameA();
    NameAtFirstRoot(pc, [0, 4, 7, 9], 9, "C");
  }

  lemma COverA(notes: set<int>)
    requires notes == {57, 60, 64, 67}
    ensures NotesToChord(notes) == Some("C/A")
  {
    var pc := PitchClasses(notes);
    assert pc == {0, 4, 7, 9};
    NotesOver(notes, pc, 57);
    COverAName(pc);
  }
}
