/**
  The `Strong Cadences: [..]` line appended to a report, and the parser that
  reads the list back: the search for `Strong Cadences.*\[(.*?)\]` (a
  leftmost match, `.` not crossing a newline, the greedy `.*` settling on
  the last `[` of the line that a `]` follows), then the pieces of the
  bracket body between commas that are digits once stripped.
*/
module CadenceList {
  import opened Wrappers
  import opened Text

  const Label: string := "Strong Cadences"

  /** Python's `str(xs)` for a list of non-negative integers: `[56, 184]`, or `[]`. */
  function ListRepr(xs: seq<nat>): string {
    "[" + ListBody(xs) + "]"
  }

  function ListBody(xs: seq<nat>): string {
    Join(NatStrings(xs), ", ")
  }

  function NatStrings(xs: seq<nat>): (ss: seq<string>)
    ensures |ss| == |xs| && forall i :: 0 <= i < |xs| ==> ss[i] == NatToString(xs[i])
  {
    if xs == [] then [] else [NatToString(xs[0])] + NatStrings(xs[1..])
  }

  /** The line `save_cadences_to_input_file` writes for the strong cadences. */
  function StrongLine(xs: seq<nat>): string {
    Label + ": " + ListRepr(xs) + "\n"
  }

  /** Where `\[` can sit within `[lo, hi)`: a `[` followed by a `]` before `hi`. */
  predicate OpenAt(s: string, hi: nat, q: nat)
    requires q < hi <= |s|
  {
    s[q] == '[' && IndexFrom(s, ']', q + 1) < hi
  }

  /** The last position below `q` (and at least `lo`) where the bracket group can start. */
  function LastOpen(s: string, lo: nat, hi: nat, q: nat): (r: Option<nat>)
    requires lo <= q <= hi <= |s|
    ensures r.Some? ==> lo <= r.value < q && OpenAt(s, hi, r.value)
                        && forall y :: r.value < y < q ==> !OpenAt(s, hi, y)
    ensures r.None? ==> forall y :: lo <= y < q ==> !OpenAt(s, hi, y)
    decreases q - lo
  {
    if q == lo then None
    else if OpenAt(s, hi, q - 1) then Some(q - 1)
    else LastOpen(s, lo, hi, q - 1)
  }

  /** The label starts at `p`. */
  predicate LabelAt(s: string, p: nat) {
    p + |Label| <= |s| && s[p..p + |Label|] == Label
  }

  /** The match of the pattern starting at `p`, as the text of its group. */
  function MatchAt(s: string, p: nat): Option<string>
    requires p <= |s|
  {
    if LabelAt(s, p) then
      var e := IndexFrom(s, '\n', p + |Label|);
      var q := LastOpen(s, p + |Label|, e, e);
      if q.Some? then Some(s[q.value + 1..IndexFrom(s, ']', q.value + 1)]) else None
    else None
  }

  /** `re.search`: the match at the leftmost position where there is one. */
  function Search(s: string, p: nat): Option<string>
    requires p <= |s|
    decreases |s| - p
  {
    var m := MatchAt(s, p);
    if m.Some? || p == |s| then m else Search(s, p + 1)
  }

  /** `int(n.strip())` for a piece that is digits once stripped. */
  function DigitPiece(piece: string): Option<nat> {
    var t := Strip(piece);
    if IsDigits(t) then Some(DigitsValue(t)) else None
  }

  /** `[int(n.strip()) for n in nums.split(',') if n.strip().isdigit()]`, or [] for a blank body. */
  function ParseBody(nums: string): seq<nat> {
    if Strip(nums) == [] then [] else FilterMap(DigitPiece, Split(nums, ','))
  }

  /** `_parse_strong_cadences` and `extract_cut_points`: the list, or [] when the pattern does not match. */
  function StrongCadences(content: string): seq<nat> {
    var m := Search(content, 0);
    if m.Some? then ParseBody(m.value) else []
  }


  lemma {:induction false} SearchSkips(s: string, p: nat, k: nat)
    requires p <= k <= |s|
    requires forall j :: p <= j < k ==> MatchAt(s, j).None?
    ensures Search(s, p) == Search(s, k)
    decreases k - p
  {
    if p < k {
      SearchSkips(s, p + 1, k);
    }
  }

  /** Without the label anywhere in the text the pattern does not match, and the list is empty. */
  lemma NoLabelNoCadences(content: string)
    requires forall p :: 0 <= p <= |content| ==> !LabelAt(content, p)
    ensures StrongCadences(content) == []
  {
    SearchSkips(content, 0, |content|);
  }

  /** Every part with a space put in front. */
  function Prefixed(ps: seq<string>): (r: seq<string>)
    ensures |r| == |ps| && forall i :: 0 <= i < |ps| ==> r[i] == " " + ps[i]
  {
    if ps == [] then [] else [" " + ps[0]] + Prefixed(ps[1..])
  }

  /** The pieces of the list body between commas: the first number, then each later one after a space. */
  function Pieces(xs: seq<nat>): (ps: seq<string>)
    requires xs != []
    ensures |ps| == |xs| && ps[0] == NatToString(xs[0])
    ensures forall i :: 1 <= i < |xs| ==> ps[i] == " " + NatToString(xs[i])
  {
    [NatToString(xs[0])] + Prefixed(NatStrings(xs[1..]))
  }

  lemma PrefixFirst(h: string, t: seq<string>, sep: string)
    ensures Join([" " + h] + t, sep) == " " + Join([h] + t, sep)
  {
    if t != [] {
      assert ([" " + h] + t)[1..] == t;
      assert ([h] + t)[1..] == t;
    }
  }

  /** Joining with ", " is joining with "," once a space is put in front of every part but the first. */
  lemma {:induction false} JoinSpaced(parts: seq<string>)
    requires parts != []
    ensures Join(parts, ", ") == Join([parts[0]] + Prefixed(parts[1..]), ",")
    decreases |parts|
  {
    if |parts| > 1 {
      var rest := parts[1..];
      JoinSpaced(rest);
      assert Prefixed(rest) == [" " + rest[0]] + Prefixed(rest[1..]);
      PrefixFirst(rest[0], Prefixed(rest[1..]), ",");
      assert ([parts[0]] + Prefixed(rest))[1..] == Prefixed(rest);
    }
  }

  lemma BodyPieces(xs: seq<nat>)
    requires xs != []
    ensures ListBody(xs) == Join(Pieces(xs), ",")
  {
    var ns := NatStrings(xs);
    JoinSpaced(ns);
    assert ns[1..] == NatStrings(xs[1..]);
  }

  lemma PiecesParse(xs: seq<nat>)
    requires xs != []
    ensures forall i :: 0 <= i < |xs| ==> DigitPiece(Pieces(xs)[i]) == Some(xs[i])
  {
    forall i | 0 <= i < |xs|
      ensures DigitPiece(Pieces(xs)[i]) == Some(xs[i])
    {
      var d := NatToString(xs[i]);
      DigitsStripped(d);
      if i == 0 {
        StripOfStripped(d);
      } else {
        assert " " + d == " " + d + "";
        StripPadded(" ", d, "");
      }
    }
  }

  lemma PiecesNoComma(xs: seq<nat>)
    requires xs != []
    ensures forall i :: 0 <= i < |xs| ==> ',' !in Pieces(xs)[i]
  {
    forall i | 0 <= i < |xs|
      ensures ',' !in Pieces(xs)[i]
    {
      var d := NatToString(xs[i]);
      assert forall k :: 0 <= k < |d| ==> IsDigit(d[k]);
    }
  }

  /** Comma-separated pieces that each read as a number read back as those numbers. */
  lemma ParseJoined(ps: seq<string>, xs: seq<nat>)
    requires |ps| == |xs| >= 1
    requires forall i :: 0 <= i < |ps| ==> ',' !in ps[i] && DigitPiece(ps[i]) == Some(xs[i])
    requires ps[0] != [] && !IsSpace(ps[0][0])
    ensures ParseBody(Join(ps, ",")) == xs
  {
    var body := Join(ps, ",");
    JoinHead(ps, ",");
    assert body[0] == ps[0][0];
    StripKeepsFirst(body);
    SplitJoin(ps, ',');
    FilterMapAllSome(DigitPiece, ps, xs);
  }

  /** The body of a written list parses back to the list. */
  lemma ParseListBody(xs: seq<nat>)
    ensures ParseBody(ListBody(xs)) == xs
  {
    if xs != [] {
      BodyPieces(xs);
      PiecesParse(xs);
      PiecesNoComma(xs);
      var d := NatToString(xs[0]);
      assert IsDigit(d[0]);
      ParseJoined(Pieces(xs), xs);
    } else {
      assert ListBody(xs) == "";
      assert Strip("") == [];
    }
  }

  predicate ListChar(c: char) {
    IsDigit(c) || c == ',' || c == ' '
  }

  lemma {:induction false} JoinListChars(ps: seq<string>)
    requires forall i :: 0 <= i < |ps| ==> IsDigits(ps[i])
    ensures forall k :: 0 <= k < |Join(ps, ", ")| ==> ListChar(Join(ps, ", ")[k])
    decreases |ps|
  {
    if |ps| > 1 {
      JoinListChars(ps[1..]);
      var rest := Join(ps[1..], ", ");
      var j := Join(ps, ", ");
      assert j == ps[0] + ", " + rest;
      forall k | 0 <= k < |j|
        ensures ListChar(j[k])
      {
        if k < |ps[0]| {
          assert j[k] == ps[0][k];
        } else if k < |ps[0]| + 2 {
          assert j[k] == ", "[k - |ps[0]|];
        } else {
          assert j[k] == rest[k - |ps[0]| - 2];
        }
      }
    } else if |ps| == 1 {
      assert Join(ps, ", ") == ps[0];
    }
  }

  /** A list body holds only digits, commas and spaces. */
  lemma ListBodyChars(xs: seq<nat>)
    ensures forall k :: 0 <= k < |ListBody(xs)| ==> ListChar(ListBody(xs)[k])
  {
    JoinListChars(NatStrings(xs));
  }

  /** The match read off the characters of a text: label, two characters, `[`, body, `]`, line break. */
  lemma MatchOfChars(s: string, p: nat, c: nat)
    requires LabelAt(s, p) && p + |Label| + 3 <= c && c + 1 < |s|
    requires s[p + |Label|] != '\n' && s[p + |Label| + 1] != '\n' && s[p + |Label| + 2] == '['
    requires forall j :: p + |Label| + 3 <= j < c ==> ListChar(s[j])
    requires s[c] == ']' && s[c + 1] == '\n'
    ensures MatchAt(s, p) == Some(s[p + |Label| + 3..c])
  {
    var o := p + |Label| + 2;
    IndexFromIs(s, '\n', p + |Label|, c + 1);
    IndexFromIs(s, ']', o + 1, c);
    assert OpenAt(s, c + 1, o);
    var q := LastOpen(s, p + |Label|, c + 1, c + 1);
    forall y | o < y < c + 1
      ensures s[y] != '['
    {
    }
  }

  /**
    Where the label is followed on its line by `: [`, a body of digits,
    commas and spaces, and `]`, the match is that body.
  */
  lemma MatchOfLine(pre: string, body: string, suf: string)
    requires forall k :: 0 <= k < |body| ==> ListChar(body[k])
    ensures MatchAt(pre + Label + ": [" + body + "]\n" + suf, |pre|) == Some(body)
  {
    var s := pre + Label + ": [" + body + "]\n" + suf;
    var p := |pre|;
    var c := p + 18 + |body|;
    LineShape(pre, body, suf);
    MatchOfChars(s, p, c);
    assert s[p + 18..c] == body by {
      assert s[p + 18..] == body + "]\n" + suf;
    }
  }

  /** The written line, character by character. */
  lemma LineShape(pre: string, body: string, suf: string)
    requires forall k :: 0 <= k < |body| ==> ListChar(body[k])
    ensures var s := pre + Label + ": [" + body + "]\n" + suf;
            var p := |pre|;
            var c := p + 18 + |body|;
            && |Label| == 15 && LabelAt(s, p) && c + 1 < |s|
            && s[p + 15] == ':' && s[p + 16] == ' ' && s[p + 17] == '['
            && (forall j :: p + 18 <= j < c ==> ListChar(s[j]))
            && s[c] == ']' && s[c + 1] == '\n'
  {
    var s := pre + Label + ": [" + body + "]\n" + suf;
    var head := pre + Label + ": [";
    var rest := body + "]\n" + suf;
    assert s == head + rest;
    var p := |pre|;
    var o := |head|;
    var c := o + |body|;
    assert |Label| == 15 && o == p + 18;
    assert s[p..p + |Label|] == head[p..p + |Label|] == Label;
    assert head[p + 15] == ':' && head[p + 16] == ' ' && head[p + 17] == '[';
    assert s[c] == rest[|body|] && s[c + 1] == rest[|body| + 1];
    forall j | o <= j < c
      ensures ListChar(s[j])
    {
      assert s[j] == rest[j - o] == body[j - o];
    }
  }

  /**
    The list written on a `Strong Cadences:` line reads back, whatever
    follows it, when the label does not occur earlier in the text.
  */
  lemma StrongCadencesRoundTrip(pre: string, xs: seq<nat>, suf: string)
    requires forall p :: 0 <= p < |pre| ==> !LabelAt(pre + StrongLine(xs) + suf, p)
    ensures StrongCadences(pre + StrongLine(xs) + suf) == xs
  {
    var body := ListBody(xs);
    var s := pre + StrongLine(xs) + suf;
    assert s == pre + Label + ": [" + body + "]\n" + suf;
    ListBodyChars(xs);
    MatchOfLine(pre, body, suf);
    SearchSkips(s, 0, |pre|);
    ParseListBody(xs);
  }
}
