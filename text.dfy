/**
  The Python string built-ins that the analysis scripts rely on, stated over
  `string` (a sequence of characters): `str.isspace`, `str.strip`,
  `str.split(sep)`, `str.split(sep, 1)`, `str.split()`, `str.isdigit`,
  `int(text)`, `str(n)`, left-justified formatting (`f"{x:<w}"`) and the
  line-by-line iteration of a text file.
*/
module Text {
  import opened Wrappers

  /** Python's `str.isspace()` for one character. */
  predicate IsSpace(c: char) {
    || c == ' '
    || ('\t' <= c <= '\r')
    || ('\U{1C}' <= c <= '\U{1F}')
    || c == '\U{85}' || c == '\U{A0}' || c == '\U{1680}'
    || ('\U{2000}' <= c <= '\U{200A}')
    || c == '\U{2028}' || c == '\U{2029}' || c == '\U{202F}' || c == '\U{205F}' || c == '\U{3000}'
  }

  predicate AllSpaces(s: string) {
    forall k :: 0 <= k < |s| ==> IsSpace(s[k])
  }

  /** A string that `strip()` leaves as it is. */
  predicate Stripped(s: string) {
    s == [] || (!IsSpace(s[0]) && !IsSpace(s[|s| - 1]))
  }

  function Spaces(n: nat): (r: string)
    ensures |r| == n && AllSpaces(r)
    ensures forall k :: 0 <= k < n ==> r[k] == ' '
  {
    if n == 0 then "" else Spaces(n - 1) + " "
  }

  /** Python's `str.lstrip()`: the longest suffix that does not start with white space. */
  function LStrip(s: string): (r: string)
    ensures |r| <= |s| && r == s[|s| - |r|..]
    ensures forall k :: 0 <= k < |s| - |r| ==> IsSpace(s[k])
    ensures r == [] || !IsSpace(r[0])
  {
    if s != [] && IsSpace(s[0]) then
      var r := LStrip(s[1..]);
      assert s[1..][|s| - 1 - |r|..] == s[|s| - |r|..];
      r
    else s
  }

  /** Python's `str.rstrip()`: the longest prefix that does not end with white space. */
  function RStrip(s: string): (r: string)
    ensures |r| <= |s| && r == s[..|r|]
    ensures forall k :: |r| <= k < |s| ==> IsSpace(s[k])
    ensures r == [] || !IsSpace(r[|r| - 1])
  {
    if s != [] && IsSpace(s[|s| - 1]) then RStrip(s[..|s| - 1]) else s
  }

  /** Python's `str.strip()` with no argument. */
  function Strip(s: string): (r: string)
    ensures Stripped(r)
  {
    RStrip(LStrip(s))
  }

  lemma LStripAfterSpaces(left: string, rest: string)
    requires AllSpaces(left)
    requires rest == [] || !IsSpace(rest[0])
    ensures LStrip(left + rest) == rest
  {
    var s := left + rest;
    assert s[|s| - |rest|..] == rest;
  }

  lemma RStripBeforeSpaces(rest: string, right: string)
    requires AllSpaces(right)
    requires rest == [] || !IsSpace(rest[|rest| - 1])
    ensures RStrip(rest + right) == rest
  {
    var s := rest + right;
    assert s[..|rest|] == rest;
  }

  /** Surrounding white space is exactly what `strip()` removes. */
  lemma StripPadded(left: string, core: string, right: string)
    requires AllSpaces(left) && AllSpaces(right) && Stripped(core)
    ensures Strip(left + core + right) == core
  {
    if core == [] {
      assert left + core + right == left + right;
      LStripAfterSpaces(left + right, []);
      assert left + right + [] == left + right;
    } else {
      assert left + core + right == left + (core + right);
      LStripAfterSpaces(left, core + right);
      RStripBeforeSpaces(core, right);
    }
  }

  lemma StripOfStripped(s: string)
    requires Stripped(s)
    ensures Strip(s) == s
  {
    if s != [] {
      assert LStrip(s) == s;
      assert RStrip(s) == s;
    }
  }

  function Concat(parts: seq<string>): string {
    if parts == [] then "" else parts[0] + Concat(parts[1..])
  }

  /** `sep.join(parts)`. */
  function Join(parts: seq<string>, sep: string): string {
    if |parts| == 0 then ""
    else if |parts| == 1 then parts[0]
    else parts[0] + sep + Join(parts[1..], sep)
  }

  /** The first index at or after `i` holding `x`, or the length when there is none. */
  function IndexFrom<T(==)>(s: seq<T>, x: T, i: nat): (k: nat)
    requires i <= |s|
    ensures i <= k <= |s| && (k < |s| ==> s[k] == x)
    ensures forall j :: i <= j < k ==> s[j] != x
    decreases |s| - i
  {
    if i == |s| || s[i] == x then i else IndexFrom(s, x, i + 1)
  }

  lemma IndexFromIs<T>(s: seq<T>, x: T, i: nat, k: nat)
    requires i <= k <= |s| && (k < |s| ==> s[k] == x)
    requires forall j :: i <= j < k ==> s[j] != x
    ensures IndexFrom(s, x, i) == k
  {
  }

  function IndexOf(s: string, c: char): (i: nat)
    requires c in s
    ensures i < |s| && s[i] == c && c !in s[..i]
  {
    if s[0] == c then 0 else 1 + IndexOf(s[1..], c)
  }

  lemma IndexOfAfter(a: string, c: char, b: string)
    requires c !in a
    ensures c in a + [c] + b && IndexOf(a + [c] + b, c) == |a|
  {
    var s := a + [c] + b;
    assert s[|a|] == c;
  }

  /**
    Python's `s.split(sep)` for a one-character separator: at least one part,
    no part contains the separator, and joining the parts gives `s` back.
  */
  function Split(s: string, sep: char): (parts: seq<string>)
    ensures |parts| >= 1
    ensures forall i :: 0 <= i < |parts| ==> sep !in parts[i]
    ensures Join(parts, [sep]) == s
    decreases |s|
  {
    if sep !in s then [s]
    else
      var i := IndexOf(s, sep);
      var rest := Split(s[i + 1..], sep);
      assert s == s[..i] + [sep] + s[i + 1..];
      [s[..i]] + rest
  }

  /** Splitting undoes joining when no part holds the separator. */
  lemma {:induction false} SplitJoin(parts: seq<string>, sep: char)
    requires |parts| >= 1
    requires forall i :: 0 <= i < |parts| ==> sep !in parts[i]
    ensures Split(Join(parts, [sep]), sep) == parts
    decreases |parts|
  {
    if |parts| > 1 {
      var tail := Join(parts[1..], [sep]);
      assert Join(parts, [sep]) == parts[0] + [sep] + tail;
      IndexOfAfter(parts[0], sep, tail);
      var s := parts[0] + [sep] + tail;
      assert s[..|parts[0]|] == parts[0];
      assert s[|parts[0]| + 1..] == tail;
      SplitJoin(parts[1..], sep);
      assert [parts[0]] + parts[1..] == parts;
    }
  }

  /** Python's `s.split(sep, 1)`. */
  function SplitOnce(s: string, sep: char): (parts: seq<string>)
    ensures sep in s ==> |parts| == 2 && sep !in parts[0] && parts[0] + [sep] + parts[1] == s
    ensures sep !in s ==> parts == [s]
  {
    if sep in s then
      var i := IndexOf(s, sep);
      assert s == s[..i] + [sep] + s[i + 1..];
      [s[..i], s[i + 1..]]
    else [s]
  }

  function FirstSpace(s: string): (i: nat)
    ensures i <= |s| && (i < |s| ==> IsSpace(s[i]))
    ensures forall k :: 0 <= k < i ==> !IsSpace(s[k])
    ensures s != [] && !IsSpace(s[0]) ==> i > 0
  {
    if s == [] || IsSpace(s[0]) then 0 else 1 + FirstSpace(s[1..])
  }

  predicate IsWord(w: string) {
    w != [] && forall k :: 0 <= k < |w| ==> !IsSpace(w[k])
  }

  /** Python's `s.split()` with no argument: the maximal runs of non-space characters. */
  function Words(s: string): (ws: seq<string>)
    ensures forall i :: 0 <= i < |ws| ==> IsWord(ws[i])
  {
    WordsFrom(LStrip(s))
  }

  /** The words of a text that does not start with white space. */
  function WordsFrom(t: string): (ws: seq<string>)
    requires t == [] || !IsSpace(t[0])
    ensures forall i :: 0 <= i < |ws| ==> IsWord(ws[i])
    decreases |t|
  {
    if t == [] then []
    else
      var i := FirstSpace(t);
      WordPrefix(t, i);
      var rest := WordsFrom(LStrip(t[i..]));
      WordsCons(t[..i], rest);
      [t[..i]] + rest
  }

  lemma WordPrefix(t: string, i: nat)
    requires 0 < i <= |t| && forall k :: 0 <= k < i ==> !IsSpace(t[k])
    ensures IsWord(t[..i]) && |t[i..]| < |t|
  {
  }

  lemma WordsCons(w: string, ws: seq<string>)
    requires IsWord(w) && forall j :: 0 <= j < |ws| ==> IsWord(ws[j])
    ensures forall j :: 0 <= j < |[w] + ws| ==> IsWord(([w] + ws)[j])
  {
  }

  lemma {:induction false} FirstSpaceAfterWord(w: string, rest: string)
    requires forall k :: 0 <= k < |w| ==> !IsSpace(w[k])
    requires rest == [] || IsSpace(rest[0])
    ensures FirstSpace(w + rest) == |w|
    decreases |w|
  {
    if w != [] {
      assert (w + rest)[1..] == w[1..] + rest;
      FirstSpaceAfterWord(w[1..], rest);
    } else {
      assert w + rest == rest;
    }
  }

  lemma WordsOfSpaces(s: string)
    requires AllSpaces(s)
    ensures Words(s) == []
  {
    LStripAfterSpaces(s, []);
    assert s + [] == s;
  }

  /** `split()` on a string that starts with a word takes that word off. */
  lemma WordsHead(w: string, rest: string)
    requires IsWord(w)
    requires rest == [] || IsSpace(rest[0])
    ensures Words(w + rest) == [w] + Words(rest)
  {
    var t := w + rest;
    assert t[0] == w[0];
    assert LStrip(t) == t;
    FirstSpaceAfterWord(w, rest);
    assert t[..|w|] == w && t[|w|..] == rest;
  }

  /** `split()` ignores one leading white-space character. */
  lemma WordsSkipSpace(c: char, s: string)
    requires IsSpace(c)
    ensures Words([c] + s) == Words(s)
  {
    LStripSkipSpace(c, s);
  }

  lemma LStripSkipSpace(c: char, s: string)
    requires IsSpace(c)
    ensures LStrip([c] + s) == LStrip(s)
  {
    assert ([c] + s)[1..] == s;
  }

  /** `"a b".split() == ["a", "b"]`. */
  lemma WordsOfPair(a: string, b: string)
    requires IsWord(a) && IsWord(b)
    ensures Words(a + " " + b) == [a, b]
  {
    assert a + " " + b == a + (" " + b);
    WordsHead(a, " " + b);
    WordsSkipSpace(' ', b);
    WordsOfOne(b);
  }

  /** `"a".split() == ["a"]`. */
  lemma WordsOfOne(a: string)
    requires IsWord(a)
    ensures Words(a) == [a]
  {
    WordsHead(a, []);
    assert a + [] == a;
  }

  predicate IsDigit(c: char) {
    '0' <= c <= '9'
  }

  /** Python's `str.isdigit()`, for ASCII digits: non-empty and every character a digit. */
  predicate IsDigits(s: string) {
    |s| > 0 && forall k :: 0 <= k < |s| ==> IsDigit(s[k])
  }

  function DigitChar(d: nat): (c: char)
    requires d < 10
    ensures IsDigit(c) && (c as int) - ('0' as int) == d
  {
    (('0' as int) + d) as char
  }

  /** The value of a decimal digit (zero for any other character). */
  function DigitValue(c: char): (d: nat)
    ensures IsDigit(c) ==> d < 10 && DigitChar(d) == c
  {
    if IsDigit(c) then (c as int) - ('0' as int) else 0
  }

  /** The value of a string of decimal digits, the last digit least significant. */
  function DigitsValue(s: string): nat {
    if s == [] then 0 else 10 * DigitsValue(s[..|s| - 1]) + DigitValue(s[|s| - 1])
  }

  /** Python's `str(n)` for a non-negative integer: decimal digits, no leading zero. */
  function NatToString(n: nat): (s: string)
    ensures IsDigits(s)
    ensures s[0] == '0' ==> s == "0"
    ensures DigitsValue(s) == n
  {
    if n < 10 then [DigitChar(n)]
    else
      var front := NatToString(n / 10);
      var s := front + [DigitChar(n % 10)];
      assert s[..|s| - 1] == front;
      s
  }

  /** Python's `str(i)` for any integer. */
  function IntToString(i: int): (s: string)
    ensures s != []
  {
    if i < 0 then "-" + NatToString(-i) else NatToString(i)
  }

  /** Digits with single underscores between them, as Python's `int()` accepts. */
  predicate IsGroupedDigits(s: string) {
    && |s| > 0 && IsDigit(s[0]) && IsDigit(s[|s| - 1])
    && (forall k :: 0 <= k < |s| ==> IsDigit(s[k]) || s[k] == '_')
    && (forall k :: 0 <= k < |s| - 1 ==> !(s[k] == '_' && s[k + 1] == '_'))
  }

  function DropUnderscores(s: string): (r: string)
    requires forall k :: 0 <= k < |s| ==> IsDigit(s[k]) || s[k] == '_'
    ensures forall k :: 0 <= k < |r| ==> IsDigit(r[k])
  {
    if s == [] then ""
    else (if s[0] == '_' then "" else [s[0]]) + DropUnderscores(s[1..])
  }

  /**
    Python's `int(text)` in base 10: optional surrounding white space, an
    optional sign, then digits (underscores allowed between digits).
    `None` where Python raises `ValueError`.
  */
  function ParseInt(text: string): Option<int> {
    ParseStripped(Strip(text))
  }

  /** `int()` after the surrounding white space is gone. */
  function ParseStripped(t: string): Option<int> {
    var signed := |t| > 0 && (t[0] == '-' || t[0] == '+');
    var body := if signed then t[1..] else t;
    if !IsGroupedDigits(body) then None
    else
      var v: int := DigitsValue(DropUnderscores(body));
      Some(if signed && t[0] == '-' then -v else v)
  }

  lemma DropUnderscoresOfDigits(s: string)
    requires forall k :: 0 <= k < |s| ==> IsDigit(s[k])
    ensures DropUnderscores(s) == s
  {
    if s != [] {
      DropUnderscoresOfDigits(s[1..]);
      assert [s[0]] + s[1..] == s;
    }
  }

  /** `int(str(n)) == n`, also with white space around the digits. */
  lemma ParseIntOfNat(n: nat, left: string, right: string)
    requires AllSpaces(left) && AllSpaces(right)
    ensures ParseInt(left + NatToString(n) + right) == Some(n)
  {
    var d := NatToString(n);
    assert IsDigit(d[0]) && IsDigit(d[|d| - 1]);
    StripPadded(left, d, right);
    ParseIntOfDigitRun(d);
    StripOfStripped(d);
  }

  /** `int()` of a run of digits is their decimal value. */
  lemma ParseIntOfDigitRun(d: string)
    requires IsDigits(d)
    ensures ParseInt(d) == Some(DigitsValue(d))
  {
    assert IsDigit(d[0]) && IsDigit(d[|d| - 1]);
    StripOfStripped(d);
    DropUnderscoresOfDigits(d);
    assert IsGroupedDigits(d);
  }

  /** `int(str(n)) == n`. */
  lemma ParseIntOfDigits(n: nat)
    ensures ParseInt(NatToString(n)) == Some(n)
  {
    ParseIntOfDigitRun(NatToString(n));
  }

  /** Python's `f"{s:<width}"`: `s` followed by spaces up to `width`. */
  function PadRight(s: string, width: nat): (r: string)
    ensures |r| == if |s| >= width then |s| else width
    ensures r[..|s|] == s && AllSpaces(r[|s|..])
    ensures forall k :: |s| <= k < |r| ==> r[k] == ' '
  {
    if |s| >= width then s
    else
      var r := s + Spaces(width - |s|);
      assert r[|s|..] == Spaces(width - |s|);
      r
  }

  predicate StartsWith(s: string, prefix: string) {
    |prefix| <= |s| && s[..|prefix|] == prefix
  }

  /**
    The lines a text file yields when iterated (`for line in f`): each line
    keeps its terminating newline, the last one may lack it, and their
    concatenation is the whole text.
  */
  function Lines(s: string): (ls: seq<string>)
    ensures Concat(ls) == s
    ensures forall i :: 0 <= i < |ls| ==> ls[i] != []
    decreases |s|
  {
    if s == [] then []
    else if '\n' !in s then [s]
    else
      var i := IndexOf(s, '\n');
      var rest := Lines(s[i + 1..]);
      assert s == s[..i + 1] + s[i + 1..];
      [s[..i + 1]] + rest
  }

  lemma LinesCons(a: string, b: string)
    requires '\n' !in a
    ensures Lines(a + "\n" + b) == [a + "\n"] + Lines(b)
  {
    var s := a + "\n" + b;
    IndexOfAfter(a, '\n', b);
    assert s[..|a| + 1] == a + "\n";
    assert s[|a| + 1..] == b;
  }

  /** `[f(x) for x in xs]`. */
  function MapSeq<A, B>(f: A -> B, xs: seq<A>): (ys: seq<B>)
    ensures |ys| == |xs|
  {
    if xs == [] then [] else MapSeq(f, xs[..|xs| - 1]) + [f(xs[|xs| - 1])]
  }

  lemma {:induction false} MapSeqAt<A, B>(f: A -> B, xs: seq<A>, k: nat)
    requires k < |xs|
    ensures MapSeq(f, xs)[k] == f(xs[k])
    decreases |xs|
  {
    var n := |xs| - 1;
    if k < n {
      MapSeqAt(f, xs[..n], k);
      assert xs[..n][k] == xs[k];
    }
  }

  /** The values `f` yields, in order, skipping the lines it maps to None. */
  function FilterMap<T>(f: string -> Option<T>, lines: seq<string>): seq<T> {
    if lines == [] then []
    else
      var last := f(lines[|lines| - 1]);
      FilterMap(f, lines[..|lines| - 1]) + (if last.Some? then [last.value] else [])
  }

  lemma FilterMapSnoc<T>(f: string -> Option<T>, lines: seq<string>, i: nat)
    requires i < |lines|
    ensures FilterMap(f, lines[..i + 1])
            == FilterMap(f, lines[..i]) + (if f(lines[i]).Some? then [f(lines[i]).value] else [])
  {
    assert lines[..i + 1][..i] == lines[..i];
  }

  lemma {:induction false} FilterMapAppend<T>(f: string -> Option<T>, a: seq<string>, b: seq<string>)
    ensures FilterMap(f, a + b) == FilterMap(f, a) + FilterMap(f, b)
    decreases |b|
  {
    if b != [] {
      var ab := a + b;
      assert ab[..|ab| - 1] == a + b[..|b| - 1];
      FilterMapAppend(f, a, b[..|b| - 1]);
    } else {
      assert a + b == a;
    }
  }

  /** When `f` maps every line to an entry, the entries come out one per line. */
  lemma {:induction false} FilterMapAllSome<T>(f: string -> Option<T>, ls: seq<string>, es: seq<T>)
    requires |ls| == |es|
    requires forall i :: 0 <= i < |ls| ==> f(ls[i]) == Some(es[i])
    ensures FilterMap(f, ls) == es
    decreases |ls|
  {
    if ls != [] {
      var n := |ls| - 1;
      FilterMapAllSome(f, ls[..n], es[..n]);
      assert es == es[..n] + [es[n]];
    }
  }

  /** When `f` maps every line to None, nothing comes out. */
  lemma {:induction false} FilterMapAllNone<T>(f: string -> Option<T>, ls: seq<string>)
    requires forall i :: 0 <= i < |ls| ==> f(ls[i]) == None
    ensures FilterMap(f, ls) == []
    decreases |ls|
  {
    if ls != [] {
      FilterMapAllNone(f, ls[..|ls| - 1]);
    }
  }

  lemma DigitsStripped(s: string)
    requires IsDigits(s)
    ensures Stripped(s)
  {
    assert IsDigit(s[0]) && IsDigit(s[|s| - 1]);
  }

  /** The first field of a split is the text before the first separator. */
  lemma {:induction false} JoinHead(parts: seq<string>, sep: string)
    requires |parts| >= 1
    ensures |parts[0]| <= |Join(parts, sep)| && Join(parts, sep)[..|parts[0]|] == parts[0]
  {
    if |parts| > 1 {
      var j := Join(parts, sep);
      assert j == parts[0] + (sep + Join(parts[1..], sep));
    }
  }

  /** `strip()` keeps a first character that is not white space. */
  lemma StripKeepsFirst(s: string)
    requires s != [] && !IsSpace(s[0])
    ensures Strip(s) != [] && Strip(s)[0] == s[0]
  {
    assert LStrip(s) == s;
  }

  lemma {:induction false} ConcatSnoc(parts: seq<string>, last: string)
    ensures Concat(parts + [last]) == Concat(parts) + last
    decreases |parts|
  {
    if parts == [] {
      assert [] + [last] == [last];
    } else {
      assert (parts + [last])[1..] == parts[1..] + [last];
      ConcatSnoc(parts[1..], last);
    }
  }

  /** Three parts joined by a separator none of them holds split back into those parts. */
  lemma SplitThree(a: string, b: string, c: string, sep: char)
    requires sep !in a && sep !in b && sep !in c
    ensures Split(a + [sep] + b + [sep] + c, sep) == [a, b, c]
  {
    var parts := [a, b, c];
    assert parts[1..] == [b, c] && [b, c][1..] == [c];
    assert Join([b, c], [sep]) == b + [sep] + c;
    assert Join(parts, [sep]) == a + [sep] + (b + [sep] + c);
    assert a + [sep] + (b + [sep] + c) == a + [sep] + b + [sep] + c;
    assert forall i :: 0 <= i < |parts| ==> sep !in parts[i];
    SplitJoin(parts, sep);
  }

  /** A written number holds nothing but digits. */
  lemma NatStringHasNo(n: nat, c: char)
    requires !IsDigit(c)
    ensures c !in NatToString(n)
  {
    var d := NatToString(n);
    forall k | 0 <= k < |d|
      ensures d[k] != c
    {
      assert IsDigit(d[k]);
    }
  }

  /** Padding adds only spaces. */
  lemma PadHasNo(s: string, width: nat, c: char)
    requires c != ' ' && c !in s
    ensures c !in PadRight(s, width)
  {
    var p := PadRight(s, width);
    forall k | 0 <= k < |p|
      ensures p[k] != c
    {
      if k < |s| {
        assert p[k] == p[..|s|][k];
      }
    }
  }

  /** One more part of a list, written after the parts before it. */
  lemma ConcatPrefix(parts: seq<string>, j: nat)
    requires j < |parts|
    ensures Concat(parts[..j + 1]) == Concat(parts[..j]) + parts[j]
  {
    assert parts[..j + 1] == parts[..j] + [parts[j]];
    ConcatSnoc(parts[..j], parts[j]);
  }

  /** Lines that each end in their only newline are read back one by one. */
  lemma {:induction false} LinesOfConcat(ls: seq<string>)
    requires forall i :: 0 <= i < |ls| ==> |ls[i]| > 0 && ls[i][|ls[i]| - 1] == '\n'
    requires forall i :: 0 <= i < |ls| ==> '\n' !in ls[i][..|ls[i]| - 1]
    ensures Lines(Concat(ls)) == ls
    decreases |ls|
  {
    if ls != [] {
      var a := ls[0][..|ls[0]| - 1];
      assert ls[0] == a + "\n";
      LinesOfConcat(ls[1..]);
      LinesCons(a, Concat(ls[1..]));
      assert Concat(ls) == a + "\n" + Concat(ls[1..]);
      assert [ls[0]] + ls[1..] == ls;
    }
  }
}
