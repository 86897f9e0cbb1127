/**
  The cadence detector of the harmonic analysis: the timeline read from a
  report is compressed into chord events (one per run of equal functions),
  and every pair of consecutive events is tested for a strict perfect
  cadence V -> I landing on a beat; a cadence is strong when the tonic lasts
  a half note or more and regular when it lasts between an eighth and a half.
*/
module Cadence {
  import opened Text
  import opened Report

  /** `{'function': ..., 'start_tick': ..., 'duration': ...}`; a duration may be negative when ticks go backwards. */
  datatype ChordEvent = ChordEvent(func: string, start: nat, duration: int)

  /** The loop state of `get_chord_events`: the closed events, `current_func` and `start_tick`. */
  datatype Scan = Scan(closed: seq<ChordEvent>, func: string, start: nat)

  /** One loop step: a change of function closes the running event at the new tick. */
  function Step(st: Scan, e: Entry): Scan {
    if e.func != st.func then
      Scan(st.closed + [ChordEvent(st.func, st.start, e.tick - st.start)], e.func, e.tick)
    else st
  }

  /** The loop state after the entries of a non-empty timeline. */
  function ScanOf(tl: seq<Entry>): Scan
    requires tl != []
  {
    if |tl| == 1 then Scan([], tl[0].func, tl[0].tick)
    else Step(ScanOf(tl[..|tl| - 1]), tl[|tl| - 1])
  }

  /** `get_chord_events`: the closed events, then the running one, which lasts through the last tick. */
  function ChordEvents(tl: seq<Entry>): seq<ChordEvent> {
    if tl == [] then []
    else
      var st := ScanOf(tl);
      st.closed + [ChordEvent(st.func, st.start, tl[|tl| - 1].tick - st.start + 1)]
  }

  method GetChordEvents(timeline: seq<Entry>) returns (events: seq<ChordEvent>)
    ensures events == ChordEvents(timeline)
  {
    events := [];
    if timeline == [] {
      return;
    }
    var currentFunc := timeline[0].func;
    var startTick := timeline[0].tick;
    var i := 0;
    while i < |timeline|
      invariant 0 <= i <= |timeline|
      invariant Scan(events, currentFunc, startTick) == ScanOf(timeline[..if i == 0 then 1 else i])
    {
      var func := timeline[i].func;
      var tick := timeline[i].tick;
      if func != currentFunc {
        events := events + [ChordEvent(currentFunc, startTick, tick as int - startTick)];
        currentFunc := func;
        startTick := tick;
      }
      if i > 0 {
        assert timeline[..i + 1][..i] == timeline[..i];
      }
      i := i + 1;
    }
    assert timeline[..|timeline|] == timeline;
    var finalTick := timeline[|timeline| - 1].tick;
    events := events + [ChordEvent(currentFunc, startTick, finalTick as int - startTick + 1)];
  }

  /** The shape every loop state keeps: neighbouring functions differ, and a closed event lasts until the next start. */
  predicate WellChained(st: Scan) {
    && (forall k :: 0 <= k < |st.closed| - 1 ==>
          st.closed[k].func != st.closed[k + 1].func
          && st.closed[k].duration == st.closed[k + 1].start - st.closed[k].start)
    && (st.closed != [] ==>
          st.closed[|st.closed| - 1].func != st.func
          && st.closed[|st.closed| - 1].duration == st.start - st.closed[|st.closed| - 1].start)
  }

  lemma {:induction false} ScanChained(tl: seq<Entry>)
    requires tl != []
    ensures WellChained(ScanOf(tl))
    ensures ScanOf(tl).closed != [] ==> ScanOf(tl).closed[0].start == tl[0].tick
    ensures ScanOf(tl).closed == [] ==> ScanOf(tl).start == tl[0].tick
    decreases |tl|
  {
    if |tl| > 1 {
      var front := tl[..|tl| - 1];
      ScanChained(front);
      assert front[0] == tl[0];
    }
  }

  /**
    `get_chord_events`: nothing for an empty timeline; otherwise the first
    event starts at the first tick, neighbouring events have different
    functions, an event lasts until the next one starts, and the last lasts
    from its start through the last tick.
  */
  lemma ChordEventsShape(tl: seq<Entry>)
    ensures var ev := ChordEvents(tl);
            && (tl == [] <==> ev == [])
            && (tl != [] ==>
                  (ev[0].start == tl[0].tick
                   && ev[|ev| - 1].duration == tl[|tl| - 1].tick - ev[|ev| - 1].start + 1))
            && (forall k :: 0 <= k < |ev| - 1 ==>
                  (ev[k].func != ev[k + 1].func && ev[k].duration == ev[k + 1].start - ev[k].start))
  {
    if tl != [] {
      ScanChained(tl);
    }
  }

  /** A timeline written for ticks 0, 1, 2, ... in order. */
  predicate Consecutive(tl: seq<Entry>) {
    forall i :: 0 <= i < |tl| ==> tl[i].tick == i
  }

  function Funcs(tl: seq<Entry>): (fs: seq<string>)
    ensures |fs| == |tl| && forall i :: 0 <= i < |tl| ==> fs[i] == tl[i].func
  {
    if tl == [] then [] else Funcs(tl[..|tl| - 1]) + [tl[|tl| - 1].func]
  }

  /** `d` copies of `f` (none for a non-positive `d`). */
  function Repeat(f: string, d: int): (r: seq<string>)
    ensures |r| == if d <= 0 then 0 else d
    ensures forall k :: 0 <= k < |r| ==> r[k] == f
  {
    if d <= 0 then [] else Repeat(f, d - 1) + [f]
  }

  /** One function per sixteenth note again: every event repeated for its duration. */
  function Expand(evs: seq<ChordEvent>): seq<string> {
    if evs == [] then []
    else Expand(evs[..|evs| - 1]) + Repeat(evs[|evs| - 1].func, evs[|evs| - 1].duration)
  }

  lemma {:induction false} ScanExpand(tl: seq<Entry>)
    requires tl != [] && Consecutive(tl)
    ensures ScanOf(tl).start < |tl|
    ensures Expand(ScanOf(tl).closed) + Repeat(ScanOf(tl).func, |tl| - ScanOf(tl).start) == Funcs(tl)
    decreases |tl|
  {
    var n := |tl|;
    if n == 1 {
      assert Repeat(tl[0].func, 1) == [tl[0].func];
    } else {
      var front := tl[..n - 1];
      var st0 := ScanOf(front);
      var e := tl[n - 1];
      assert e.tick == n - 1;
      assert st0.start < n - 1 && Expand(st0.closed) + Repeat(st0.func, n - 1 - st0.start) == Funcs(front) by {
        assert Consecutive(front);
        ScanExpand(front);
      }
      assert Funcs(tl) == Funcs(front) + [e.func];
      assert ScanOf(tl) == Step(st0, e);
      ExpandStep(st0, e, n, Funcs(front));
    }
  }

  /** One more tick of the timeline: the expansion of the loop state grows by its function. */
  lemma ExpandStep(st0: Scan, e: Entry, n: nat, fs: seq<string>)
    requires st0.start < n - 1 && e.tick == n - 1
    requires Expand(st0.closed) + Repeat(st0.func, n - 1 - st0.start) == fs
    ensures Step(st0, e).start < n
    ensures Expand(Step(st0, e).closed) + Repeat(Step(st0, e).func, n - Step(st0, e).start) == fs + [e.func]
  {
    var st := Step(st0, e);
    var a := Expand(st0.closed);
    var r := Repeat(st0.func, n - 1 - st0.start);
    if e.func != st0.func {
      var ev := ChordEvent(st0.func, st0.start, e.tick - st0.start);
      assert st.closed == st0.closed + [ev] && st.func == e.func && st.start == n - 1;
      assert Expand(st.closed) == a + r by {
        ExpandSnoc(st0.closed, ev);
      }
      assert Repeat(e.func, 1) == [e.func];
    } else {
      RepeatSnoc(st0.func, n - 1 - st0.start);
      assert a + (r + [e.func]) == (a + r) + [e.func];
    }
  }

  lemma ExpandSnoc(evs: seq<ChordEvent>, ev: ChordEvent)
    ensures Expand(evs + [ev]) == Expand(evs) + Repeat(ev.func, ev.duration)
  {
    assert (evs + [ev])[..|evs|] == evs;
  }

  lemma RepeatSnoc(f: string, d: nat)
    ensures Repeat(f, d + 1) == Repeat(f, d) + [f]
  {
  }

  /**
    Compression loses nothing: for a timeline of ticks 0..n-1, repeating each
    event's function for its duration gives back the function of every tick.
  */
  lemma ExpandChordEvents(tl: seq<Entry>)
    requires Consecutive(tl)
    ensures Expand(ChordEvents(tl)) == Funcs(tl)
  {
    if tl != [] {
      var st := ScanOf(tl);
      var n := |tl|;
      assert tl[n - 1].tick == n - 1;
      var last := ChordEvent(st.func, st.start, tl[n - 1].tick - st.start + 1);
      assert ChordEvents(tl) == st.closed + [last];
      assert Expand(st.closed + [last]) == Expand(st.closed) + Repeat(st.func, n - st.start) by {
        ExpandSnoc(st.closed, last);
      }
      ScanExpand(tl);
    }
  }

  predicate StrictTicks(tl: seq<Entry>) {
    forall i, j :: 0 <= i < j < |tl| ==> tl[i].tick < tl[j].tick
  }

  predicate StrictStarts(evs: seq<ChordEvent>) {
    forall i, j :: 0 <= i < j < |evs| ==> evs[i].start < evs[j].start
  }

  lemma {:induction false} ScanStarts(tl: seq<Entry>)
    requires tl != [] && StrictTicks(tl)
    ensures var st := ScanOf(tl);
            && StrictStarts(st.closed)
            && (forall k :: 0 <= k < |st.closed| ==> st.closed[k].start < st.start)
            && st.start <= tl[|tl| - 1].tick
    decreases |tl|
  {
    if |tl| > 1 {
      var front := tl[..|tl| - 1];
      ScanStarts(front);
      assert front[|front| - 1] == tl[|tl| - 2];
    }
  }

  /** With strictly increasing ticks, event starts strictly increase and every duration is at least one. */
  lemma ChordEventsIncreasing(tl: seq<Entry>)
    requires StrictTicks(tl)
    ensures StrictStarts(ChordEvents(tl))
    ensures forall k :: 0 <= k < |ChordEvents(tl)| ==> ChordEvents(tl)[k].duration >= 1
  {
    if tl != [] {
      ScanStarts(tl);
      ChordEventsShape(tl);
      var st := ScanOf(tl);
      var ev := ChordEvents(tl);
      assert ev[..|ev| - 1] == st.closed;
      forall i, j | 0 <= i < j < |ev|
        ensures ev[i].start < ev[j].start
      {
        if j == |ev| - 1 {
          assert ev[i] == st.closed[i];
        } else {
          assert ev[i] == st.closed[i] && ev[j] == st.closed[j];
        }
      }
      forall k | 0 <= k < |ev|
        ensures ev[k].duration >= 1
      {
        if k < |ev| - 1 {
          assert ev[k].start < ev[k + 1].start;
        }
      }
    }
  }

  /** Starts with `V`, and a second character, if any, is not `I` or `i` (so not `VI` or `VII`). */
  predicate IsDominant(f: string) {
    |f| >= 1 && f[0] == 'V' && (|f| == 1 || (f[1] != 'I' && f[1] != 'i'))
  }

  /** Starts with `I` or `i`, and a second character, if any, is none of `I`, `i`, `V`, `v`. */
  predicate IsTonic(f: string) {
    |f| >= 1 && (f[0] == 'I' || f[0] == 'i')
    && (|f| == 1 || (f[1] != 'I' && f[1] != 'i' && f[1] != 'V' && f[1] != 'v'))
  }

  /** `is_perfect_cadence`: a dominant of at least an eighth note resolving to a tonic on a beat. */
  predicate IsPerfectCadence(prev: ChordEvent, curr: ChordEvent) {
    IsDominant(prev.func) && IsTonic(curr.func) && curr.start % 4 == 0 && prev.duration >= 2
  }

  datatype Kind = Strong | Regular | NoCadence

  /** How `find_cadences` files a pair: by the length of the resolution. */
  function Classify(prev: ChordEvent, curr: ChordEvent): (k: Kind)
    ensures k == Strong <==> IsPerfectCadence(prev, curr) && curr.duration >= 8
    ensures k == Regular <==> IsPerfectCadence(prev, curr) && 2 <= curr.duration < 8
    ensures k == NoCadence <==> !IsPerfectCadence(prev, curr) || curr.duration < 2
  {
    if !IsPerfectCadence(prev, curr) then NoCadence
    else if curr.duration >= 8 then Strong
    else if curr.duration >= 2 then Regular
    else NoCadence
  }

  /** The starts of the pairs among the first `n` events that are filed as `kind`, in order. */
  function Starts(evs: seq<ChordEvent>, n: nat, kind: Kind): seq<nat>
    requires n <= |evs|
  {
    if n <= 1 then []
    else Starts(evs, n - 1, kind) + (if Classify(evs[n - 2], evs[n - 1]) == kind then [evs[n - 1].start] else [])
  }

  function StrongCadences(evs: seq<ChordEvent>): seq<nat> {
    Starts(evs, |evs|, Strong)
  }

  function RegularCadences(evs: seq<ChordEvent>): seq<nat> {
    Starts(evs, |evs|, Regular)
  }

  /** `find_cadences` over a report's text: parse, compress, then file every consecutive pair. */
  method FindCadences(text: string) returns (strong: seq<nat>, regular: seq<nat>)
    ensures strong == StrongCadences(ChordEvents(Timeline(text)))
    ensures regular == RegularCadences(ChordEvents(Timeline(text)))
  {
    var timeline := ParseHarmonicOutput(text);
    var events := GetChordEvents(timeline);
    strong, regular := FileCadences(events);
  }

  /** The pair loop of `find_cadences`, over the `zip` of the events with their successors. */
  method FileCadences(events: seq<ChordEvent>) returns (strong: seq<nat>, regular: seq<nat>)
    ensures strong == StrongCadences(events)
    ensures regular == RegularCadences(events)
  {
    strong := [];
    regular := [];
    var k := 1;
    while k < |events|
      invariant 1 <= k <= if |events| == 0 then 1 else |events|
      invariant strong == Starts(events, if k <= |events| then k else 0, Strong)
      invariant regular == Starts(events, if k <= |events| then k else 0, Regular)
    {
      var prev := events[k - 1];
      var curr := events[k];
      if IsPerfectCadence(prev, curr) {
        if curr.duration >= 8 {
          strong := strong + [curr.start];
        } else if curr.duration >= 2 {
          regular := regular + [curr.start];
        }
      }
      k := k + 1;
    }
  }

  /** A start is listed as `kind` exactly when some consecutive pair ending at it is filed as `kind`. */
  lemma {:induction false} StartsMembership(evs: seq<ChordEvent>, n: nat, kind: Kind, x: nat)
    requires n <= |evs|
    ensures x in Starts(evs, n, kind) <==>
              exists k :: 1 <= k < n && Classify(evs[k - 1], evs[k]) == kind && evs[k].start == x
  {
    if n > 1 {
      StartsMembership(evs, n - 1, kind, x);
      if Classify(evs[n - 2], evs[n - 1]) == kind && evs[n - 1].start == x {
        assert 1 <= n - 1 < n && Classify(evs[n - 2], evs[n - 1]) == kind && evs[n - 1].start == x;
      }
    }
  }

  predicate Ascending(xs: seq<nat>) {
    forall i, j :: 0 <= i < j < |xs| ==> xs[i] < xs[j]
  }

  lemma {:induction false} StartsAscending(evs: seq<ChordEvent>, n: nat, kind: Kind)
    requires n <= |evs| && StrictStarts(evs)
    ensures Ascending(Starts(evs, n, kind))
    ensures forall i :: 0 <= i < |Starts(evs, n, kind)| ==> n >= 2 && Starts(evs, n, kind)[i] <= evs[n - 1].start
  {
    if n > 1 {
      StartsAscending(evs, n - 1, kind);
      var front := Starts(evs, n - 1, kind);
      forall i | 0 <= i < |front|
        ensures front[i] < evs[n - 1].start
      {
        assert front[i] <= evs[n - 2].start;
      }
    }
  }

  /**
    With strictly increasing event starts (as compressing a report's timeline
    gives) both lists are ascending and no start is both strong and regular.
  */
  lemma CadencesAscendingDisjoint(evs: seq<ChordEvent>)
    requires StrictStarts(evs)
    ensures Ascending(StrongCadences(evs)) && Ascending(RegularCadences(evs))
    ensures forall x :: x in StrongCadences(evs) ==> x !in RegularCadences(evs)
  {
    StartsAscending(evs, |evs|, Strong);
    StartsAscending(evs, |evs|, Regular);
    forall x | x in StrongCadences(evs)
      ensures x !in RegularCadences(evs)
    {
      StrongNotRegular(evs, x);
    }
  }

  /** The start of a strong cadence belongs to one pair only, which is not regular. */
  lemma StrongNotRegular(evs: seq<ChordEvent>, x: nat)
    requires StrictStarts(evs) && x in StrongCadences(evs)
    ensures x !in RegularCadences(evs)
  {
    var k1 := StartsSource(evs, |evs|, Strong, x);
    forall k2 | 1 <= k2 < |evs| && evs[k2].start == x
      ensures Classify(evs[k2 - 1], evs[k2]) != Regular
    {
      StartsDistinct(evs, k1, k2);
    }
    StartsNotIn(evs, |evs|, Regular, x);
  }

  /** A recorded start comes from a pair of that kind. */
  lemma {:induction false} StartsSource(evs: seq<ChordEvent>, n: nat, kind: Kind, x: nat) returns (k: nat)
    requires n <= |evs| && x in Starts(evs, n, kind)
    ensures 1 <= k < n && Classify(evs[k - 1], evs[k]) == kind && evs[k].start == x
  {
    if x in Starts(evs, n - 1, kind) {
      k := StartsSource(evs, n - 1, kind, x);
    } else {
      k := n - 1;
    }
  }

  /** A start no pair of that kind has is not recorded. */
  lemma {:induction false} StartsNotIn(evs: seq<ChordEvent>, n: nat, kind: Kind, x: nat)
    requires n <= |evs|
    requires forall k :: 1 <= k < n && evs[k].start == x ==> Classify(evs[k - 1], evs[k]) != kind
    ensures x !in Starts(evs, n, kind)
  {
    if n > 1 {
      StartsNotIn(evs, n - 1, kind, x);
    }
  }

  lemma StartsDistinct(evs: seq<ChordEvent>, i: nat, j: nat)
    requires StrictStarts(evs) && i < |evs| && j < |evs| && evs[i].start == evs[j].start
    ensures i == j
  {
  }

  /** The cadences found in a report's text whose ticks strictly increase are ascending and disjoint. */
  lemma FoundCadencesAscendingDisjoint(text: string)
    requires StrictTicks(Timeline(text))
    ensures var evs := ChordEvents(Timeline(text));
            Ascending(StrongCadences(evs)) && Ascending(RegularCadences(evs))
            && forall x :: x in StrongCadences(evs) ==> x !in RegularCadences(evs)
  {
    ChordEventsIncreasing(Timeline(text));
    CadencesAscendingDisjoint(ChordEvents(Timeline(text)));
  }

  /** A timeline holding `f` for its first `m` entries and `g` for the rest. */
  predicate TwoRuns(tl: seq<Entry>, m: nat, f: string, g: string) {
    && 0 < m < |tl| && f != g
    && (forall i :: 0 <= i < m ==> tl[i].func == f)
    && (forall i :: m <= i < |tl| ==> tl[i].func == g)
  }

  lemma {:induction false} ScanFirstRun(tl: seq<Entry>, m: nat, f: string, g: string, n: nat)
    requires TwoRuns(tl, m, f, g) && 1 <= n <= m
    ensures ScanOf(tl[..n]) == Scan([], f, tl[0].tick)
  {
    if n > 1 {
      ScanFirstRun(tl, m, f, g, n - 1);
      assert tl[..n][..n - 1] == tl[..n - 1];
    }
  }

  lemma {:induction false} ScanSecondRun(tl: seq<Entry>, m: nat, f: string, g: string, n: nat)
    requires TwoRuns(tl, m, f, g) && m < n <= |tl|
    ensures ScanOf(tl[..n]) == Scan([ChordEvent(f, tl[0].tick, tl[m].tick - tl[0].tick)], g, tl[m].tick)
  {
    assert tl[..n][..n - 1] == tl[..n - 1];
    if n == m + 1 {
      ScanFirstRun(tl, m, f, g, m);
    } else {
      ScanSecondRun(tl, m, f, g, n - 1);
    }
  }

  /**
    A dominant held for `m >= 2` sixteenths and then a tonic from beat tick
    `m` to the end of a timeline of ticks 0..n-1 is one cadence at `m`:
    strong when the tonic lasts 8 sixteenths or more, regular when it lasts
    2 to 7, and none when it lasts 1.
  */
  lemma DominantThenTonic(tl: seq<Entry>, m: nat, f: string, g: string)
    requires Consecutive(tl) && TwoRuns(tl, m, f, g)
    requires IsDominant(f) && IsTonic(g) && m >= 2 && m % 4 == 0
    ensures var evs := ChordEvents(tl); var d := |tl| - m;
            && evs == [ChordEvent(f, 0, m), ChordEvent(g, m, d)]
            && StrongCadences(evs) == (if d >= 8 then [m] else [])
            && RegularCadences(evs) == (if 2 <= d < 8 then [m] else [])
  {
    TwoRunsEvents(tl, m, f, g);
    PairCadences(ChordEvent(f, 0, m), ChordEvent(g, m, |tl| - m));
  }

  lemma TwoRunsEvents(tl: seq<Entry>, m: nat, f: string, g: string)
    requires Consecutive(tl) && TwoRuns(tl, m, f, g)
    ensures ChordEvents(tl) == [ChordEvent(f, 0, m), ChordEvent(g, m, |tl| - m)]
  {
    ScanSecondRun(tl, m, f, g, |tl|);
    assert tl[..|tl|] == tl;
  }

  lemma PairCadences(a: ChordEvent, b: ChordEvent)
    ensures StrongCadences([a, b]) == (if Classify(a, b) == Strong then [b.start] else [])
    ensures RegularCadences([a, b]) == (if Classify(a, b) == Regular then [b.start] else [])
  {
    assert Starts([a, b], 1, Strong) == [] && Starts([a, b], 1, Regular) == [];
  }

  /** Functions V for ticks 0-3 and I for ticks 4-11 give one strong cadence at 4 and no regular one. */
  lemma FourDominantsEightTonics()
    ensures var tl := seq(12, i requires 0 <= i => Entry(i, if i < 4 then "V" else "I"));
            StrongCadences(ChordEvents(tl)) == [4] && RegularCadences(ChordEvents(tl)) == []
  {
    var tl := seq(12, i requires 0 <= i => Entry(i, if i < 4 then "V" else "I"));
    DominantThenTonic(tl, 4, "V", "I");
  }
}
