/**
  The V-to-I scanner of `get_5_to_1_places.py`. It reads a chord file such
  as `get_chords_per_16th` writes (`N: chord` per line) and records every
  pair of consecutive chords where the first is a major chord a fifth above
  the second, the second is in root position, and the second falls on the
  third quarter of its bar.
*/
module FiveToOne {
  import opened Wrappers
  import opened Text
  import ChordNamer
  import opened ChordFile

  /** `(curr_16th - 1) % 16` lies in 8..11: positions 9 to 12 of a bar of sixteen. */
  predicate ThirdQuarter(sixteenth: int) {
    8 <= (sixteenth - 1) % 16 <= 11
  }

  /**
    `(hi - lo) % 12 == 7` for two positions in `NOTES`, written without the
    remainder: the difference is 7 or -5.
  */
  predicate FifthApart(hi: nat, lo: nat) {
    hi - lo == 7 || hi - lo == -5
  }

  /** On positions up to 12, the test agrees with Python's `(hi - lo) % 12 == 7`. */
  lemma FifthApartMod(hi: nat, lo: nat)
    requires hi <= 12 && lo <= 12
    ensures FifthApart(hi, lo) <==> (hi - lo) % 12 == 7
  {
  }

  /**
    The test that records a pair: the previous root is a fifth above the
    current one, the previous chord is major, the current chord is in root
    position and on the third quarter.
  */
  predicate FifthToFirst(prev: Reading, curr: Reading) {
    && prev.Chord? && curr.Chord?
    && FifthApart(NoteIndex(prev.root), NoteIndex(curr.root))
    && IsMajorChord(prev.base)
    && curr.bass == curr.root
    && ThirdQuarter(curr.sixteenth)
  }

  /** Every chord read has a known root and bass and a non-empty base. */
  predicate WellRead(rs: seq<Reading>) {
    forall k :: 0 <= k < |rs| ==> rs[k].Chord? ==> Read(rs[k])
  }

  /** What the loop body makes of each line of the file, in order. */
  function Readings(lines: seq<string>): (rs: seq<Reading>)
    ensures |rs| == |lines|
  {
    MapSeq(ReadLine, lines)
  }

  /** Every chord the loop body reads has a known root and bass and a non-empty base. */
  lemma ReadLinesWellRead(lines: seq<string>)
    ensures WellRead(Readings(lines))
  {
    var rs := Readings(lines);
    forall k | 0 <= k < |lines|
      ensures rs[k].Chord? ==> Read(rs[k])
    {
      MapSeqAt(ReadLine, lines, k);
    }
  }

  /** Reading `k` is what the loop body makes of line `k`. */
  lemma ReadingsAt(lines: seq<string>, k: nat)
    requires k < |lines|
    ensures Readings(lines)[k] == ReadLine(lines[k])
  {
    MapSeqAt(ReadLine, lines, k);
  }

  /** The accepted chords among the readings, in order. */
  function Accepted(rs: seq<Reading>): (cs: seq<Reading>)
    ensures AllChords(cs)
    ensures |cs| <= |rs|
  {
    if rs == [] then []
    else
      var r := rs[|rs| - 1];
      if r.Chord? then
        Accepted(rs[..|rs| - 1]) + [r]
      else Accepted(rs[..|rs| - 1])
  }

  predicate AllChords(cs: seq<Reading>) {
    forall k :: 0 <= k < |cs| ==> cs[k].Chord?
  }

  /** The sixteenths of the neighbouring chords that pass `test`, in file order. */
  function PairsBy(cs: seq<Reading>, test: (Reading, Reading) -> bool): seq<(int, int)>
    requires AllChords(cs)
  {
    if |cs| < 2 then []
    else
      var n := |cs|;
      PairsBy(cs[..n - 1], test)
      + (if test(cs[n - 2], cs[n - 1]) then [(cs[n - 2].sixteenth, cs[n - 1].sixteenth)] else [])
  }

  /** The pairs of neighbouring accepted chords that pass the V-to-I test. */
  function Pairs(cs: seq<Reading>): seq<(int, int)>
    requires AllChords(cs)
  {
    PairsBy(cs, FifthToFirst)
  }

  /** Some line makes the loop body raise `IndexError`. */
  predicate Crashes(rs: seq<Reading>) {
    exists k :: 0 <= k < |rs| && rs[k].Crash?
  }

  /** Every accepted chord has a known root and bass and a non-empty base. */
  lemma {:induction false} AcceptedRead(rs: seq<Reading>)
    requires WellRead(rs)
    ensures forall k :: 0 <= k < |Accepted(rs)| ==> Read(Accepted(rs)[k])
    decreases |rs|
  {
    if rs != [] {
      var front := rs[..|rs| - 1];
      assert forall k :: 0 <= k < |front| ==> front[k] == rs[k];
      AcceptedRead(front);
    }
  }

  lemma AcceptedSnoc(rs: seq<Reading>, i: nat)
    requires i < |rs|
    ensures Accepted(rs[..i + 1]) == Accepted(rs[..i]) + (if rs[i].Chord? then [rs[i]] else [])
  {
    assert rs[..i + 1][..i] == rs[..i];
    assert forall k :: 0 <= k < i + 1 ==> rs[..i + 1][k] == rs[k];
  }

  lemma PairsSnoc(cs: seq<Reading>, c: Reading)
    requires AllChords(cs) && c.Chord?
    ensures AllChords(cs + [c])
    ensures Pairs(cs + [c])
            == Pairs(cs) + (if cs != [] && FifthToFirst(cs[|cs| - 1], c)
                            then [(cs[|cs| - 1].sixteenth, c.sixteenth)] else [])
  {
    PairsBySnoc(cs, c, FifthToFirst);
  }

  lemma PairsBySnoc(cs: seq<Reading>, c: Reading, test: (Reading, Reading) -> bool)
    requires AllChords(cs) && c.Chord?
    ensures AllChords(cs + [c])
    ensures PairsBy(cs + [c], test)
            == PairsBy(cs, test) + (if cs != [] && test(cs[|cs| - 1], c)
                                    then [(cs[|cs| - 1].sixteenth, c.sixteenth)] else [])
  {
    var all := cs + [c];
    assert all[..|all| - 1] == cs;
  }

  /** The loop body's parse of line `i`. */
  method ReadAt(lines: seq<string>, i: nat) returns (c: Reading)
    requires i < |lines|
    ensures c == Readings(lines)[i]
  {
    c := ReadLine(lines[i]);
    ReadingsAt(lines, i);
  }

  /**
    One accepted chord: the pair `(prev_16th, curr_16th)` is recorded when
    the previous accepted chord and this one pass the test.
  */
  method Advance(ghost acc: seq<Reading>, prev: Option<Reading>, c: Reading, result: seq<(int, int)>)
    returns (next: seq<(int, int)>)
    requires AllChords(acc) && c.Chord?
    requires prev.None? <==> acc == []
    requires prev.Some? ==> prev.value == acc[|acc| - 1]
    requires result == Pairs(acc)
    ensures AllChords(acc + [c])
    ensures next == Pairs(acc + [c])
  {
    PairsSnoc(acc, c);
    next := result;
    if prev.Some? && FifthToFirst(prev.value, c) {
      next := result + [(prev.value.sixteenth, c.sixteenth)];
    }
  }

  /**
    The loop of `get_5_to_1_places` over the lines of the chord file: the
    pairs it records, or the `IndexError` that ends it.
  */
  method ScanLines(lines: seq<string>) returns (r: Result<seq<(int, int)>, string>)
    ensures var rs := Readings(lines); r.Err? <==> Crashes(rs)
    ensures var rs := Readings(lines); r.Ok? ==> r.value == Pairs(Accepted(rs))
  {
    ghost var rs := Readings(lines);
    var result: seq<(int, int)> := [];
    var prev: Option<Reading> := None;
    ghost var acc: seq<Reading> := [];
    for i := 0 to |lines|
      invariant forall k :: 0 <= k < i ==> !rs[k].Crash?
      invariant acc == Accepted(rs[..i])
      invariant result == Pairs(acc)
      invariant prev.None? <==> acc == []
      invariant prev.Some? ==> prev.value == acc[|acc| - 1]
    {
      var c := ReadAt(lines, i);
      if c.Crash? {
        return Err("IndexError");
      }
      AcceptedSnoc(rs, i);
      if c.Chord? {
        result := Advance(acc, prev, c, result);
        acc := acc + [c];
        prev := Some(c);
      }
    }
    assert rs[..|lines|] == rs;
    return Ok(result);
  }

  /**
    A pair is recorded exactly when two neighbouring accepted chords pass
    the test.
  */
  lemma PairsMembers(cs: seq<Reading>, v: int, w: int)
    requires AllChords(cs)
    ensures (v, w) in Pairs(cs) <==>
            exists k :: 1 <= k < |cs| && FifthToFirst(cs[k - 1], cs[k])
                        && v == cs[k - 1].sixteenth && w == cs[k].sixteenth
  {
    if (v, w) in Pairs(cs) {
      var k := PairSource(cs, FifthToFirst, v, w);
    }
    if exists k :: 1 <= k < |cs| && FifthToFirst(cs[k - 1], cs[k])
                   && v == cs[k - 1].sixteenth && w == cs[k].sixteenth {
      var k :| 1 <= k < |cs| && FifthToFirst(cs[k - 1], cs[k])
               && v == cs[k - 1].sixteenth && w == cs[k].sixteenth;
      PairRecorded(cs, FifthToFirst, k);
    }
  }

  /** Every pair comes from two neighbouring chords that pass the test. */
  lemma {:induction false} PairSource(cs: seq<Reading>, test: (Reading, Reading) -> bool, v: int, w: int)
    returns (k: nat)
    requires AllChords(cs) && (v, w) in PairsBy(cs, test)
    ensures 1 <= k < |cs| && test(cs[k - 1], cs[k])
    ensures v == cs[k - 1].sixteenth && w == cs[k].sixteenth
    decreases |cs|
  {
    var n := |cs|;
    var front := cs[..n - 1];
    if (v, w) in PairsBy(front, test) {
      k := PairSource(front, test, v, w);
      assert front[k - 1] == cs[k - 1] && front[k] == cs[k];
    } else {
      k := n - 1;
    }
  }

  /** Two neighbouring chords that pass the test give a pair. */
  lemma {:induction false} PairRecorded(cs: seq<Reading>, test: (Reading, Reading) -> bool, k: nat)
    requires AllChords(cs) && 1 <= k < |cs| && test(cs[k - 1], cs[k])
    ensures (cs[k - 1].sixteenth, cs[k].sixteenth) in PairsBy(cs, test)
    decreases |cs|
  {
    var n := |cs|;
    if k < n - 1 {
      var front := cs[..n - 1];
      assert front[k - 1] == cs[k - 1] && front[k] == cs[k];
      PairRecorded(front, test, k);
    }
  }

  /** At most one pair per neighbouring couple of accepted chords. */
  lemma {:induction false} PairsBound(cs: seq<Reading>)
    requires AllChords(cs)
    ensures |Pairs(cs)| <= if |cs| < 2 then 0 else |cs| - 1
    decreases |cs|
  {
    if |cs| >= 2 {
      PairsBound(cs[..|cs| - 1]);
      assert Pairs(cs) == Pairs(cs[..|cs| - 1]) + (if FifthToFirst(cs[|cs| - 2], cs[|cs| - 1]) then [(cs[|cs| - 2].sixteenth, cs[|cs| - 1].sixteenth)] else []);
    }
  }

  // ---------------------------------------------------------------------
  // The output file
  // ---------------------------------------------------------------------

  /** `f"{v} -> {i}\n"`. */
  function PairLine(p: (int, int)): string {
    IntToString(p.0) + " -> " + IntToString(p.1) + "\n"
  }

  /** The lines of the output file, one per pair. */
  function PairLines(pairs: seq<(int, int)>): (ls: seq<string>)
    ensures |ls| == |pairs|
  {
    MapSeq(PairLine, pairs)
  }

  /** The output file: one line per recorded pair, in order. */
  function PairsText(pairs: seq<(int, int)>): string {
    if pairs == [] then "" else PairsText(pairs[..|pairs| - 1]) + PairLine(pairs[|pairs| - 1])
  }

  method WritePairs(pairs: seq<(int, int)>) returns (text: string)
    ensures text == PairsText(pairs)
  {
    text := "";
    for k := 0 to |pairs|
      invariant text == PairsText(pairs[..k])
    {
      assert pairs[..k + 1][..k] == pairs[..k];
      text := text + PairLine(pairs[k]);
    }
    assert pairs[..|pairs|] == pairs;
  }

  lemma PairLineEnds(p: (int, int))
    ensures var l := PairLine(p); |l| > 0 && l[|l| - 1] == '\n' && '\n' !in l[..|l| - 1]
  {
    var l := PairLine(p);
    var a := IntToString(p.0);
    var b := IntToString(p.1);
    assert l[..|l| - 1] == a + " -> " + b;
    IntNoNewline(p.0);
    IntNoNewline(p.1);
  }

  lemma IntNoNewline(i: int)
    ensures '\n' !in IntToString(i)
  {
    var d := NatToString(if i < 0 then -i else i);
    forall k | 0 <= k < |d| ensures d[k] != '\n' {
      assert IsDigit(d[k]);
    }
  }

  /** Read back line by line, the output holds exactly the line of each pair, in order. */
  lemma PairsTextLines(pairs: seq<(int, int)>)
    ensures Lines(PairsText(pairs)) == PairLines(pairs)
    ensures forall k :: 0 <= k < |pairs| ==> Lines(PairsText(pairs))[k] == PairLine(pairs[k])
  {
    var ls := PairLines(pairs);
    PairsTextConcat(pairs);
    forall k | 0 <= k < |ls|
      ensures ls[k] == PairLine(pairs[k])
      ensures |ls[k]| > 0 && ls[k][|ls[k]| - 1] == '\n' && '\n' !in ls[k][..|ls[k]| - 1]
    {
      MapSeqAt(PairLine, pairs, k);
      PairLineEnds(pairs[k]);
    }
    LinesOfConcat(ls);
  }

  lemma {:induction false} PairsTextConcat(pairs: seq<(int, int)>)
    ensures PairsText(pairs) == Concat(PairLines(pairs))
    decreases |pairs|
  {
    if pairs != [] {
      var n := |pairs| - 1;
      PairsTextConcat(pairs[..n]);
      ConcatSnoc(PairLines(pairs[..n]), PairLine(pairs[n]));
    }
  }

  /** `get_5_to_1_places`: the output text, or the exception that stops the scan before anything is written. */
  method FiveToOnePlaces(content: string) returns (r: Result<string, string>)
    ensures var rs := Readings(Lines(content)); r.Err? <==> Crashes(rs)
    ensures var rs := Readings(Lines(content)); r.Ok? ==> r.value == PairsText(Pairs(Accepted(rs)))
  {
    var scanned := ScanLines(Lines(content));
    if scanned.Err? {
      return Err(scanned.error);
    }
    var text := WritePairs(scanned.value);
    return Ok(text);
  }
}
