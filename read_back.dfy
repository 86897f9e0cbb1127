/**
  The chord file as one script writes it and the other reads it:
  `get_chords_per_16th` writes a namer's name per line, and
  `get_5_to_1_places` reads back the root, the bass and the quality of that
  name. The lemmas here state which names come back unchanged, which
  shapes `_is_major_chord` calls major, and the one kind of name that is not
  read back as written.
*/
module ReadBack {
  import opened Wrappers
  import opened Text
  import opened ChordNamer
  import ChordLines
  import opened ChordFile
  import FiveToOne

  /** A character the namer can put in a name, none of which the reader treats specially. */
  predicate Plain(c: char) {
    ('A' <= c <= 'Z') || ('a' <= c <= 'z') || ('0' <= c <= '9') || c == '#'
  }

  predicate AllPlain(s: string) {
    forall k :: 0 <= k < |s| ==> Plain(s[k])
  }

  /** The tensions of a major or minor shape are among b9, #11 and b13, as `_get_tensions` makes them. */
  predicate Rendered(s: Shape) {
    (s.Major? || s.Minor?) ==> forall i :: 0 <= i < |s.tensions| ==> s.tensions[i] in ["b9", "#11", "b13"]
  }

  /** Every shape the namer finds has tensions only from `_get_tensions`. */
  lemma ClassifyRendered(root: int, pc: set<int>)
    ensures Classify(root, pc).Some? ==> Rendered(Classify(root, pc).value)
  {
    ClassifyPrecedence(root, pc);
  }

  /** A note name is a letter A-G, possibly followed by `#`. */
  lemma NameShape(r: PitchClass)
    ensures 1 <= |Name(r)| <= 2 && Name(r)[0] in "ABCDEFG"
    ensures |Name(r)| == 2 ==> Name(r)[1] == '#'
    ensures AllPlain(Name(r)) && IsNote(Name(r))
  {
  }

  /** `NOTES.index` finds a name at its own pitch class. */
  lemma NoteIndexOfName(r: PitchClass)
    ensures IsNote(Name(r)) && NoteIndex(Name(r)) == r
  {
    NameShape(r);
    NamesDistinct();
  }

  lemma NamesDistinct()
    ensures forall i, j :: 0 <= i < j < 12 ==> ChordNamer.NoteNames[i] != ChordNamer.NoteNames[j]
  {
  }

  lemma AllPlainAppend(a: string, b: string)
    requires AllPlain(a) && AllPlain(b)
    ensures AllPlain(a + b)
  {
    forall k | 0 <= k < |a + b|
      ensures Plain((a + b)[k])
    {
      if k >= |a| {
        assert (a + b)[k] == b[k - |a|];
      }
    }
  }

  lemma TensionPlain(t: string)
    requires t in ["b9", "#11", "b13"]
    ensures AllPlain(t) && |t| >= 2 && (t[0] == 'b' || t[0] == '#')
  {
  }

  /** The tensions, run together, are plain characters beginning with `b` or `#`. */
  lemma {:induction false} TensionsPlain(ts: seq<string>)
    requires forall i :: 0 <= i < |ts| ==> ts[i] in ["b9", "#11", "b13"]
    ensures AllPlain(Concat(ts))
    ensures ts != [] ==> |Concat(ts)| >= 2 && (Concat(ts)[0] == 'b' || Concat(ts)[0] == '#')
    ensures ts != [] && Concat(ts)[0] == '#' ==> ts[0] == "#11"
    decreases |ts|
  {
    if ts != [] {
      TensionPlain(ts[0]);
      TensionsPlain(ts[1..]);
      AllPlainAppend(ts[0], Concat(ts[1..]));
      assert Concat(ts)[0] == ts[0][0];
    }
  }

  /** The seventh of a major shape, as the name shows it. */
  function SeventhText(ext: Seventh): string {
    match ext case Major7 => "maj7" case Minor7 => "7" case NoSeventh => ""
  }

  /** Only a major shape whose first tension is #11 and that has no seventh has a name part beginning with `#`. */
  lemma SuffixPlain(s: Shape)
    requires Rendered(s)
    ensures AllPlain(Suffix(s))
    ensures Suffix(s) != [] && Suffix(s)[0] == '#' <==> s.Major? && s.ext == NoSeventh && s.tensions != [] && s.tensions[0] == "#11"
  {
    match s
    case Major(ext, ts) => MajorSuffixPlain(ext, ts);
    case Minor(m7, ts) => MinorSuffixPlain(m7, ts);
    case Sus2(seventh) =>
      AllPlainAppend("sus2", if seventh then "7" else "");
    case Sus4(seventh) =>
      AllPlainAppend("sus4", if seventh then "7" else "");
    case Dim7 =>
    case HalfDim =>
    case Dim =>
    case Aug =>
  }

  lemma MajorSuffixPlain(ext: Seventh, ts: seq<string>)
    requires Rendered(Major(ext, ts))
    ensures var suf := Suffix(Major(ext, ts));
            AllPlain(suf) && (suf != [] && suf[0] == '#' <==> ext == NoSeventh && ts != [] && ts[0] == "#11")
  {
    TensionsPlain(ts);
    var suf := Suffix(Major(ext, ts));
    assert suf == SeventhText(ext) + Concat(ts);
    AllPlainAppend(SeventhText(ext), Concat(ts));
    if ext == NoSeventh {
      assert suf == Concat(ts);
      if ts != [] && ts[0] == "#11" {
        assert Concat(ts)[0] == ts[0][0];
      }
    } else {
      assert suf[0] == SeventhText(ext)[0];
    }
  }

  lemma MinorSuffixPlain(m7: bool, ts: seq<string>)
    requires Rendered(Minor(m7, ts))
    ensures var suf := Suffix(Minor(m7, ts)); AllPlain(suf) && suf != [] && suf[0] == 'm'
  {
    TensionsPlain(ts);
    var head := "m" + (if m7 then "7" else "");
    assert Suffix(Minor(m7, ts)) == head + Concat(ts);
    AllPlainAppend(head, Concat(ts));
  }

  /** `_is_major_chord` skips the root and its `#`, the quality begins after them. */
  lemma QualityOfName(r: PitchClass, s: Shape)
    ensures Quality(Name(r) + Suffix(s))
            == if |Name(r)| == 1 && Suffix(s) != [] && Suffix(s)[0] == '#' then Suffix(s)[1..] else Suffix(s)
  {
    NameShape(r);
    var base := Name(r) + Suffix(s);
    if |Name(r)| == 2 {
      assert base[1] == '#' && base[2..] == Suffix(s);
    } else if Suffix(s) != [] {
      assert base[1] == Suffix(s)[0] && base[1..] == Suffix(s) && base[2..] == Suffix(s)[1..];
    }
  }

  /** A quality `_is_major_chord` accepts: empty, `maj...`, or beginning with none of `m`, `d`, `a`, `s`. */
  predicate MajorQuality(q: string) {
    q == [] || q[0] !in "mdas" || (|q| >= 3 && q[..3] == "maj")
  }

  lemma MajorByQuality(base: string)
    requires MajorQuality(Quality(base))
    ensures IsMajorChord(base)
  {
    var q := Quality(base);
    if |base| > 1 && q != [] {
      assert q[..1] == [q[0]];
      if |q| >= 3 && q[..3] == "maj" {
        assert q[..3][..1] == q[..1];
      }
    }
  }

  /** The part after a major shape's root, with or without its first character when that is `#`, is a major quality. */
  lemma MajorSuffixQuality(ext: Seventh, ts: seq<string>)
    requires Rendered(Major(ext, ts))
    ensures var suf := Suffix(Major(ext, ts));
            MajorQuality(suf) && (suf != [] && suf[0] == '#' ==> MajorQuality(suf[1..]))
  {
    var suf := Suffix(Major(ext, ts));
    var c := Concat(ts);
    assert suf == SeventhText(ext) + c;
    match ext
    case Major7 =>
      assert suf[..3] == "maj" && suf[0] == 'm' by {
        assert suf == "maj7" + c;
      }
    case Minor7 =>
      assert suf[0] == '7';
    case NoSeventh =>
      assert suf == c;
      if ts != [] {
        TensionsPlain(ts);
        if c[0] == '#' {
          assert c == "#11" + Concat(ts[1..]);
          assert suf[1] == '1';
        }
      }
  }

  lemma MajorShapeIsMajor(r: PitchClass, ext: Seventh, ts: seq<string>)
    requires Rendered(Major(ext, ts))
    ensures IsMajorChord(Name(r) + Suffix(Major(ext, ts)))
  {
    QualityOfName(r, Major(ext, ts));
    MajorSuffixQuality(ext, ts);
    MajorByQuality(Name(r) + Suffix(Major(ext, ts)));
  }

  /** A quality `_is_major_chord` calls minor: it begins with `m` and not with `maj`. */
  predicate MinorQuality(q: string) {
    q != [] && q[0] == 'm' && !(|q| >= 3 && q[..3] == "maj")
  }

  lemma MinorByQuality(base: string)
    requires |base| > 1 && MinorQuality(Quality(base))
    ensures !IsMajorChord(base)
  {
    var q := Quality(base);
    assert q[..1] == "m";
    if |q| >= 3 {
      assert q[..3][..1] == q[..1];
    }
  }

  /** The part after a minor shape's root is a minor quality. */
  lemma MinorSuffixQuality(m7: bool, ts: seq<string>)
    requires Rendered(Minor(m7, ts))
    ensures MinorQuality(Suffix(Minor(m7, ts)))
  {
    var suf := Suffix(Minor(m7, ts));
    TensionsPlain(ts);
    var rest := (if m7 then "7" else "") + Concat(ts);
    assert suf == "m" + rest;
    if |suf| >= 3 {
      assert suf[1] == (if m7 then '7' else Concat(ts)[0]);
    }
  }

  lemma MinorShapeNotMajor(r: PitchClass, m7: bool, ts: seq<string>)
    requires Rendered(Minor(m7, ts))
    ensures !IsMajorChord(Name(r) + Suffix(Minor(m7, ts)))
  {
    NameShape(r);
    QualityOfName(r, Minor(m7, ts));
    MinorSuffixQuality(m7, ts);
    MinorByQuality(Name(r) + Suffix(Minor(m7, ts)));
  }

  /** `_is_major_chord`, on the names the namer builds, holds exactly for the major shapes. */
  lemma IsMajorOfName(r: PitchClass, s: Shape)
    requires Rendered(s)
    ensures IsMajorChord(Name(r) + Suffix(s)) <==> s.Major?
  {
    match s
    case Major(ext, ts) => MajorShapeIsMajor(r, ext, ts);
    case Minor(m7, ts) => MinorShapeNotMajor(r, m7, ts);
    case Sus2(_) =>
      assert Suffix(s)[..3] == "sus";
      OtherShapeNotMajor(r, Suffix(s));
    case Sus4(_) =>
      assert Suffix(s)[..3] == "sus";
      OtherShapeNotMajor(r, Suffix(s));
    case Dim7 =>
      assert Suffix(s)[..3] == "dim";
      OtherShapeNotMajor(r, Suffix(s));
    case HalfDim =>
      assert Suffix(s)[..3] == "m7b";
      OtherShapeNotMajor(r, Suffix(s));
    case Dim =>
      assert Suffix(s)[..3] == "dim";
      OtherShapeNotMajor(r, Suffix(s));
    case Aug =>
      assert Suffix(s)[..3] == "aug";
      OtherShapeNotMajor(r, Suffix(s));
  }

  /** A root followed by `sus`, `dim`, `aug` or `m7b` is not major. */
  lemma OtherShapeNotMajor(r: PitchClass, suf: string)
    requires |suf| >= 3 && suf[..3] in {"sus", "dim", "aug", "m7b"}
    ensures !IsMajorChord(Name(r) + suf)
  {
    NameShape(r);
    var base := Name(r) + suf;
    var q := Quality(base);
    assert q == suf by {
      if |Name(r)| == 2 {
        assert base[1] == '#' && base[2..] == suf;
      } else {
        assert base[1] == suf[0] && base[1..] == suf;
      }
    }
    assert q[..1] == q[..3][..1];
  }

  lemma PlainNotSpace(c: char)
    requires Plain(c)
    ensures !IsSpace(c) && c != ':' && c != '/'
  {
  }

  /** `str(n)` has no colon and begins with a digit. */
  lemma DigitsNoColon(n: nat)
    ensures NatToString(n) != [] && IsDigit(NatToString(n)[0]) && ':' !in NatToString(n)
  {
    var d := NatToString(n);
    forall k | 0 <= k < |d| ensures d[k] != ':' {
      assert IsDigit(d[k]);
    }
  }

  /** `strip()` removes only the newline of a line `N: name`. */
  lemma StripLine(d: string, name: string)
    requires d != [] && IsDigit(d[0])
    requires name != [] && !IsSpace(name[|name| - 1])
    ensures Strip(d + ": " + name + "\n") == d + ": " + name
  {
    var core := d + ": " + name;
    assert core[0] == d[0] && core[|core| - 1] == name[|name| - 1];
    assert AllSpaces("\n");
    StripPadded("", core, "\n");
    assert "" + core + "\n" == core + "\n";
  }

  /** `split(':', 1)` cuts `N: name` at its first colon. */
  lemma SplitField(d: string, name: string)
    requires ':' !in d
    ensures SplitOnce(d + ": " + name, ':') == [d, " " + name]
  {
    var core := d + ": " + name;
    assert core == d + [':'] + (" " + name);
    IndexOfAfter(d, ':', " " + name);
    assert core[..|d|] == d && core[|d| + 1..] == " " + name;
  }

  lemma StripSpaceName(name: string)
    requires Stripped(name)
    ensures Strip(" " + name) == name
  {
    assert AllSpaces(" ") && AllSpaces("");
    StripPadded(" ", name, "");
    assert " " + name + "" == " " + name;
  }

  /** A line `index: name` gives the index `int()` reads and the name, when neither half has a colon. */
  lemma FieldsOf(d: string, k: int, name: string)
    requires d != [] && IsDigit(d[0]) && ':' !in d && ParseInt(d) == Some(k)
    requires name != [] && Stripped(name) && ':' !in name
    ensures LineFields(d + ": " + name + "\n") == Some((k, name))
  {
    var line := d + ": " + name + "\n";
    assert line[|d|] == ':';
    StripLine(d, name);
    SplitField(d, name);
    StripSpaceName(name);
  }

  /**
    A line `N: name` whose name has no colon and no white space at its ends
    gives the index `N` and the name.
  */
  lemma LineFieldsOf(n: nat, name: string)
    requires name != [] && Plain(name[0]) && Plain(name[|name| - 1]) && ':' !in name
    ensures LineFields(NatToString(n) + ": " + name + "\n") == Some((n, name))
  {
    PlainNotSpace(name[0]);
    PlainNotSpace(name[|name| - 1]);
    DigitsNoColon(n);
    ParseIntOfDigits(n);
    FieldsOf(NatToString(n), n, name);
  }

  /** The name the namer gives a shape at a root, with its slash bass when there is one. */
  function NamerName(r: PitchClass, s: Shape, slash: Option<PitchClass>): string {
    Name(r) + Suffix(s) + (if slash.Some? then "/" + Name(slash.value) else "")
  }

  lemma NoSlash(s: string)
    requires AllPlain(s)
    ensures '/' !in s && ':' !in s
  {
    forall k | 0 <= k < |s| ensures s[k] != '/' && s[k] != ':' {
      PlainNotSpace(s[k]);
    }
  }

  /** What the reader requires of the text before the slash. */
  predicate ReadableBase(base: string, root: string) {
    && base != [] && base[0] in "ABCDEFG" && '/' !in base
    && NoteAt(base) == root && IsNote(root)
  }

  /** What the reader requires of a bass after the slash: a bare note name. */
  predicate ReadableBass(b: string) {
    b != [] && '/' !in b && Stripped(b) && NoteAt(b) == b && IsNote(b)
  }

  lemma ReadChordPlain(n: int, base: string, root: string)
    requires ReadableBase(base, root)
    ensures ReadChord(n, base) == Chord(n, root, root, base)
  {
    assert base[0] != 'r';
  }

  lemma ReadChordSlash(n: int, base: string, root: string, b: string)
    requires ReadableBase(base, root) && ReadableBass(b)
    ensures ReadChord(n, base + ("/" + b)) == Chord(n, root, b, base)
  {
    var chord := base + ("/" + b);
    assert chord[0] == base[0] && chord[0] != 'r';
    assert chord == Join([base, b], "/");
    SplitJoin([base, b], '/');
    StripOfStripped(b);
  }

  /** A root's name followed by a rendered quality that does not begin with `#` reads back as that root. */
  lemma BaseReadable(r: PitchClass, s: Shape)
    requires Rendered(s)
    requires Suffix(s) == [] || Suffix(s)[0] != '#'
    ensures ReadableBase(Name(r) + Suffix(s), Name(r))
  {
    var base := Name(r) + Suffix(s);
    NameShape(r);
    SuffixPlain(s);
    AllPlainAppend(Name(r), Suffix(s));
    NoSlash(base);
    assert base[0] == Name(r)[0];
    if |Name(r)| == 2 {
      assert base[1] == '#';
    } else if |base| > 1 {
      assert base[1] == Suffix(s)[0];
    }
  }

  lemma BassReadable(b: PitchClass)
    ensures ReadableBass(Name(b))
  {
    NameShape(b);
    NoSlash(Name(b));
    PlainNotSpace(Name(b)[0]);
    PlainNotSpace(Name(b)[|Name(b)| - 1]);
  }

  /**
    A namer's name comes back as its root, its bass (the root when there is
    no slash) and the text before the slash, unless the root is a natural
    note and the part after it begins with `#`.
  */
  lemma ReadChordOfName(n: int, r: PitchClass, s: Shape, slash: Option<PitchClass>)
    requires Rendered(s)
    requires Suffix(s) == [] || Suffix(s)[0] != '#'
    ensures ReadChord(n, NamerName(r, s, slash))
            == Chord(n, Name(r), if slash.Some? then Name(slash.value) else Name(r), Name(r) + Suffix(s))
  {
    BaseReadable(r, s);
    ReadNameParts(n, Name(r) + Suffix(s), Name(r), slash);
  }

  lemma ReadSlashName(n: int, base: string, root: string, b: PitchClass)
    requires ReadableBase(base, root)
    ensures ReadChord(n, base + ("/" + Name(b))) == Chord(n, root, Name(b), base)
  {
    BassReadable(b);
    ReadChordSlash(n, base, root, Name(b));
  }

  /** A readable base, with or without a slash and a note name after it. */
  lemma ReadNameParts(n: int, base: string, root: string, slash: Option<PitchClass>)
    requires ReadableBase(base, root)
    ensures ReadChord(n, base + (if slash.Some? then "/" + Name(slash.value) else ""))
            == Chord(n, root, if slash.Some? then Name(slash.value) else root, base)
  {
    if slash.Some? {
      ReadSlashName(n, base, root, slash.value);
    } else {
      ReadChordPlain(n, base, root);
      assert base + "" == base;
    }
  }

  /**
    The line `get_chords_per_16th` writes for sixteenth `i` is read back by
    `get_5_to_1_places` as sixteenth `i + 1` with the name's root, bass and
    base.
  */
  lemma ReadBackLine(i: nat, r: PitchClass, s: Shape, slash: Option<PitchClass>)
    requires Rendered(s)
    requires Suffix(s) == [] || Suffix(s)[0] != '#'
    ensures ReadLine(ChordLines.ChordLine(i, Some(NamerName(r, s, slash))))
            == Chord(i + 1, Name(r), if slash.Some? then Name(slash.value) else Name(r), Name(r) + Suffix(s))
  {
    var name := NamerName(r, s, slash);
    var base := Name(r) + Suffix(s);
    var bass := if slash.Some? then Some(Name(slash.value)) else None;
    assert base != [] && AllPlain(base) by {
      NameShape(r);
      SuffixPlain(s);
      AllPlainAppend(Name(r), Suffix(s));
    }
    if slash.Some? {
      NameShape(slash.value);
    }
    LineNameParts(base, bass);
    assert name == base + (if bass.Some? then "/" + bass.value else "");
    assert ChordLines.Shown(Some(name)) == name;
    LineFieldsOf(i + 1, name);
    ReadChordOfName(i + 1, r, s, slash);
  }

  /** A plain base, with or without `/` and a plain bass, begins and ends plain and has no colon. */
  lemma LineNameParts(base: string, bass: Option<string>)
    requires base != [] && AllPlain(base)
    requires bass.Some? ==> bass.value != [] && AllPlain(bass.value)
    ensures var name := base + (if bass.Some? then "/" + bass.value else "");
            name != [] && Plain(name[0]) && Plain(name[|name| - 1]) && ':' !in name
  {
    var name := base + (if bass.Some? then "/" + bass.value else "");
    NoSlash(base);
    assert name[0] == base[0];
    if bass.Some? {
      var b := bass.value;
      NoSlash(b);
      assert name == base + ("/" + b);
      assert name[|name| - 1] == b[|b| - 1];
      forall k | 0 <= k < |name| ensures name[k] != ':' {
        if k < |base| { assert name[k] == base[k]; }
        else if k > |base| { assert name[k] == b[k - |base| - 1]; }
      }
    } else {
      assert name == base;
    }
  }

  /**
    A natural root followed by a quality that begins with `#` (the namer's
    `C#11` for C, E, F# and G, say) is read back with the sharpened root:
    `C#11` as a C# chord, while `E#11` is skipped, since E# is not one of
    the twelve names.
  */
  lemma SharpElevenMisread(n: int, x: char, rest: string)
    requires x in "ABCDEFG" && '/' !in rest
    ensures var base := [x] + "#" + rest;
            ReadChord(n, base) == if IsNote([x, '#']) then Chord(n, [x, '#'], [x, '#'], base) else Skipped
  {
    var base := [x] + "#" + rest;
    assert base[0] == x && base[1] == '#';
    assert NoteAt(base) == [x, '#'];
    assert '/' !in base by {
      forall k | 0 <= k < |base| ensures base[k] != '/' {
        if k >= 2 { assert base[k] == rest[k - 2]; }
      }
    }
    if IsNote([x, '#']) {
      ReadChordPlain(n, base, [x, '#']);
    } else {
      ReadUnknownRoot(n, base);
    }
  }

  /** Of the seven letters, exactly C, D, F, G and A take a sharp among the twelve names. */
  lemma SharpRoots(x: char)
    requires x in "ABCDEFG"
    ensures IsNote([x, '#']) <==> x in "CDFGA"
  {
    assert ChordFile.NoteNames == ["C", "C#", "D", "D#", "E", "F", "F#", "G", "G#", "A", "A#", "B"];
  }

  /** A chord text without a slash whose root is not one of the twelve names is skipped. */
  lemma ReadUnknownRoot(n: int, base: string)
    requires base != [] && base[0] in "ABCDEFG" && '/' !in base && !IsNote(NoteAt(base))
    ensures ReadChord(n, base) == Skipped
  {
    assert base[0] != 'r';
  }
}
