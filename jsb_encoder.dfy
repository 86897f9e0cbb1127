/**
  `jsb_json_to_midi.py`: chorales given as lists of time steps (each a list
  of MIDI pitches) written into one MIDI track. Between two steps the
  encoder turns off the pitches that stop and turns on the pitches that
  start; only the first message of a step carries the time since the
  previous message.
*/
module JsbEncoder {
  import opened Wrappers
  import opened Sets
  import opened Midi

  /** A chorale: one list of pitches per time step. */
  type Chorale = seq<seq<int>>

  /** The JSON object: each split name maps to its list of chorales. */
  type DataSet = map<string, seq<Chorale>>

  /** `ValueError("No sequences found in JSON")` and the `ZeroDivisionError` of a zero tempo. */
  datatype JsbError = NoSequences | ZeroTempo

  /** The `--resolution` choices: the length of one time step. */
  datatype Resolution = Quarter | Eighth | Sixteenth

  /** The split names, in the order they are tried. */
  const SplitKeys: seq<string> := ["train", "test", "valid", "single"]

  // ---------------------------------------------------------------------
  // Set-up
  // ---------------------------------------------------------------------

  function Chosen(data: DataSet): seq<Chorale> {
    if SplitKeys[0] in data then data[SplitKeys[0]]
    else if SplitKeys[1] in data then data[SplitKeys[1]]
    else if SplitKeys[2] in data then data[SplitKeys[2]]
    else if SplitKeys[3] in data then data[SplitKeys[3]]
    else []
  }

  /** The chorales of the first split present; an error if that gives none. */
  function SelectSequences(data: DataSet): (r: Result<seq<Chorale>, JsbError>)
    ensures r.Err? ==> r.error == NoSequences
    ensures r.Ok? ==> r.value != []
  {
    var cs := Chosen(data);
    if cs == [] then Err(NoSequences) else Ok(cs)
  }

  /** Only the first split present counts, even when its list is empty and a later one is not. */
  lemma SelectFirstPresent(data: DataSet, i: nat)
    requires i < |SplitKeys| && SplitKeys[i] in data
    requires forall j :: 0 <= j < i ==> SplitKeys[j] !in data
    ensures SelectSequences(data) == if data[SplitKeys[i]] == [] then Err(NoSequences) else Ok(data[SplitKeys[i]])
  {
  }

  lemma SelectNonePresent(data: DataSet)
    requires forall j :: 0 <= j < |SplitKeys| ==> SplitKeys[j] !in data
    ensures SelectSequences(data) == Err(NoSequences)
  {
  }

  /** `int(60000000 / tempo)`: the quotient truncated toward zero, `None` for a zero tempo. */
  function TempoMicros(tempo: int): (r: Option<int>)
    ensures r.None? <==> tempo == 0
    ensures r.Some? ==> (tempo > 0 ==> r.value >= 0) && (tempo < 0 ==> r.value <= 0)
  {
    if tempo == 0 then None
    else if tempo > 0 then Some(60000000 / tempo)
    else Some(-(60000000 / -tempo))
  }

  /** The microseconds per beat are the largest count (toward zero) whose product with the tempo stays within a minute. */
  lemma TempoMicrosBounds(tempo: int)
    requires tempo != 0
    ensures var us := TempoMicros(tempo).value;
            && (tempo > 0 ==> us * tempo <= 60000000 < (us + 1) * tempo)
            && (tempo < 0 ==> us * tempo <= 60000000 < (us - 1) * tempo)
  {
  }

  /** `int(480 * beats_per_step[resolution])`: a quarter, an eighth or a sixteenth of a 480-tick beat. */
  function StepTicks(res: Resolution): (t: nat)
    ensures t * StepsPerBeat(res) == 480
  {
    match res
    case Quarter => 480
    case Eighth => 240
    case Sixteenth => 120
  }

  function StepsPerBeat(res: Resolution): nat {
    match res
    case Quarter => 1
    case Eighth => 2
    case Sixteenth => 4
  }

  /** `mido.MetaMessage('set_tempo', tempo=micros, time=0)`. */
  function TempoMessage(micros: int): Message {
    Message(0, Meta(SetTempo(micros)), 0, 0, 0)
  }

  // ---------------------------------------------------------------------
  // The encoding, as functions
  // ---------------------------------------------------------------------

  /** `set(note for note in time_step if 21 <= note <= 108)`: the piano keys of a step. */
  function InRange(step: seq<int>): (s: set<int>)
    ensures forall n :: n in s <==> n in step && 21 <= n <= 108
  {
    set n | n in step && 21 <= n <= 108
  }

  /** `note_on` at velocity 64 or `note_off` at velocity 0, on channel 0. */
  function NoteMessage(on: bool, delta: nat, note: int): Message {
    if on then Message(delta, NoteOn, 0, note, 64) else NoteOffMessage(delta, 0, note)
  }

  /** One message per note; the first carries `pending` and the rest a zero delta. */
  function NoteMessages(notes: seq<int>, on: bool, pending: nat): (ms: seq<Message>)
    ensures |ms| == |notes|
    decreases |notes|
  {
    if notes == [] then []
    else [NoteMessage(on, pending, notes[0])] + NoteMessages(notes[1..], on, 0)
  }

  /** `current_time` after writing `notes`: reset to zero once anything is written. */
  function Carried(notes: seq<int>, pending: nat): nat {
    if notes == [] then pending else 0
  }

  /** The messages of one step, from the pitches sounding before it to the pitches of the step. */
  ghost function StepBlock(prev: set<int>, cur: set<int>, pending: nat): seq<Message> {
    var offs := Ascending(prev - cur);
    NoteMessages(offs, false, pending) + NoteMessages(Ascending(cur - prev), true, Carried(offs, pending))
  }

  /** `active_notes` after `i` steps. */
  function Active(c: Chorale, i: nat): set<int>
    requires i <= |c|
  {
    if i == 0 then {} else InRange(c[i - 1])
  }

  /** `current_time` at the start of step `i`: zero, then always one whole step. */
  function Pending(i: nat, step: nat): nat {
    if i == 0 then 0 else step
  }

  /** The messages of the first `i` steps of a chorale. */
  ghost function Body(c: Chorale, i: nat, step: nat): seq<Message>
    requires i <= |c|
  {
    if i == 0 then []
    else Body(c, i - 1, step) + StepBlock(Active(c, i - 1), InRange(c[i - 1]), Pending(i - 1, step))
  }

  /** The messages of one chorale: its steps, then a `note_off` for every pitch still held. */
  ghost function EncodeChorale(c: Chorale, step: nat): seq<Message> {
    Body(c, |c|, step) + NoteMessages(Ascending(Active(c, |c|)), false, Pending(|c|, step))
  }

  ghost function EncodeAll(cs: seq<Chorale>, step: nat): seq<Message> {
    if cs == [] then [] else EncodeAll(cs[..|cs| - 1], step) + EncodeChorale(cs[|cs| - 1], step)
  }

  /** The track `jsb_json_to_midi` saves, or the error it raises. */
  ghost function JsbTrack(data: DataSet, res: Resolution, tempo: int): Result<Track, JsbError> {
    match SelectSequences(data)
    case Err(e) => Err(e)
    case Ok(cs) =>
      match TempoMicros(tempo)
      case None => Err(ZeroTempo)
      case Some(us) => Ok([TempoMessage(us)] + EncodeAll(cs, StepTicks(res)))
  }

  // ---------------------------------------------------------------------
  // The encoder
  // ---------------------------------------------------------------------

  lemma {:induction false} NoteMessagesSnoc(xs: seq<int>, x: int, on: bool, pending: nat)
    ensures NoteMessages(xs + [x], on, pending) == NoteMessages(xs, on, pending) + [NoteMessage(on, Carried(xs, pending), x)]
    decreases |xs|
  {
    if xs != [] {
      assert (xs + [x])[1..] == xs[1..] + [x];
      NoteMessagesSnoc(xs[1..], x, on, 0);
    }
  }

  /** One of the inner `for note in sorted(...)` loops. */
  method AppendNotes(track: Track, notes: seq<int>, on: bool, pending: nat) returns (out: Track, current: nat)
    ensures out == track + NoteMessages(notes, on, pending)
    ensures current == Carried(notes, pending)
  {
    out, current := track, pending;
    for k := 0 to |notes|
      invariant out == track + NoteMessages(notes[..k], on, pending)
      invariant current == Carried(notes[..k], pending)
    {
      NoteMessagesSnoc(notes[..k], notes[k], on, pending);
      assert notes[..k + 1] == notes[..k] + [notes[k]];
      out := out + [NoteMessage(on, current, notes[k])];
      current := 0;
    }
    assert notes[..|notes|] == notes;
  }

  /** `sorted(s)`. */
  method SortedNotes(s: set<int>) returns (r: seq<int>)
    ensures r == Ascending(s)
  {
    r := SortedElems(s);
    SortedIsAscending(s);
  }

  /** One pass of `for time_step in sequence`, after `time_step_set` is known. */
  method AppendStep(track: Track, prev: set<int>, cur: set<int>, pending: nat) returns (out: Track)
    ensures out == track + StepBlock(prev, cur, pending)
  {
    var offs := SortedNotes(prev - cur);
    var ons := SortedNotes(cur - prev);
    var current;
    out, current := AppendNotes(track, offs, false, pending);
    out, current := AppendNotes(out, ons, true, current);
  }

  /** The body of `for sequence in sequences`. */
  method AppendChorale(track: Track, c: Chorale, step: nat) returns (out: Track)
    ensures out == track + EncodeChorale(c, step)
  {
    out := track;
    var active: set<int> := {};
    var current: nat := 0;
    for i := 0 to |c|
      invariant out == track + Body(c, i, step)
      invariant active == Active(c, i) && current == Pending(i, step)
    {
      var cur := InRange(c[i]);
      ghost var before := out;
      out := AppendStep(out, active, cur, current);
      BodyStep(track, c, i, step, before, out);
      active := cur;
      current := step;
    }
    ghost var before := out;
    var held := SortedNotes(active);
    out, current := AppendNotes(out, held, false, current);
    ChoraleEnd(track, c, step, before, out);
  }

  /** One step more: its block joins the body. */
  lemma BodyStep(track: Track, c: Chorale, i: nat, step: nat, before: Track, after: Track)
    requires i < |c| && before == track + Body(c, i, step)
    requires after == before + StepBlock(Active(c, i), InRange(c[i]), Pending(i, step))
    ensures after == track + Body(c, i + 1, step)
    ensures Active(c, i + 1) == InRange(c[i]) && Pending(i + 1, step) == step
  {
    var blk := StepBlock(Active(c, i), InRange(c[i]), Pending(i, step));
    assert Body(c, i + 1, step) == Body(c, i, step) + blk;
    assert (track + Body(c, i, step)) + blk == track + (Body(c, i, step) + blk);
  }

  /** The release of the pitches still held closes the chorale. */
  lemma ChoraleEnd(track: Track, c: Chorale, step: nat, before: Track, after: Track)
    requires before == track + Body(c, |c|, step)
    requires after == before + NoteMessages(Ascending(Active(c, |c|)), false, Pending(|c|, step))
    ensures after == track + EncodeChorale(c, step)
  {
    var tail := NoteMessages(Ascending(Active(c, |c|)), false, Pending(|c|, step));
    assert (track + Body(c, |c|, step)) + tail == track + (Body(c, |c|, step) + tail);
  }

  /** The `for sequence in sequences` loop. */
  method AppendChorales(track: Track, cs: seq<Chorale>, step: nat) returns (out: Track)
    ensures out == track + EncodeAll(cs, step)
  {
    out := track;
    for s := 0 to |cs|
      invariant out == track + EncodeAll(cs[..s], step)
    {
      out := AppendChorale(out, cs[s], step);
      assert cs[..s + 1][..s] == cs[..s];
    }
    assert cs[..|cs|] == cs;
  }

  /** The `for key in [...]` loop: the chorales of the first split present. */
  method PickSequences(data: DataSet) returns (sequences: seq<Chorale>)
    ensures sequences == Chosen(data)
  {
    sequences := [];
    var i := 0;
    while i < |SplitKeys|
      invariant i <= |SplitKeys|
      invariant forall j :: 0 <= j < i ==> SplitKeys[j] !in data
      invariant sequences == []
    {
      if SplitKeys[i] in data {
        sequences := data[SplitKeys[i]];
        break;
      }
      i := i + 1;
    }
  }

  /** `jsb_json_to_midi` up to the point where the file is saved. */
  method JsbToMidi(data: DataSet, res: Resolution, tempo: int) returns (r: Result<Track, JsbError>)
    ensures r == JsbTrack(data, res, tempo)
  {
    var sequences := PickSequences(data);
    if sequences == [] {
      return Err(NoSequences);
    }
    if tempo == 0 {
      return Err(ZeroTempo);
    }
    var micros := if tempo > 0 then 60000000 / tempo else -(60000000 / -tempo);
    var step := StepTicks(res);
    var track := AppendChorales([TempoMessage(micros)], sequences, step);
    r := Ok(track);
  }

  // ---------------------------------------------------------------------
  // What the messages of a step are
  // ---------------------------------------------------------------------

  lemma {:induction false} NoteMessagesAt(notes: seq<int>, on: bool, pending: nat, k: nat)
    requires k < |notes|
    ensures NoteMessages(notes, on, pending)[k] == NoteMessage(on, if k == 0 then pending else 0, notes[k])
    decreases |notes|
  {
    if k > 0 {
      NoteMessagesAt(notes[1..], on, 0, k - 1);
    }
  }

  /**
    A step writes a `note_off` for each pitch that stops, in ascending
    order, and then a `note_on` at velocity 64 for each pitch that starts,
    in ascending order; the first message carries the pending delta and
    every other one a zero delta.
  */
  lemma StepBlockShape(prev: set<int>, cur: set<int>, pending: nat)
    ensures var b := StepBlock(prev, cur, pending);
            var offs := Ascending(prev - cur);
            var ons := Ascending(cur - prev);
            && |b| == |prev - cur| + |cur - prev|
            && (forall j :: 0 <= j < |offs| ==> b[j] == NoteOffMessage(if j == 0 then pending else 0, 0, offs[j]))
            && (forall j :: |offs| <= j < |b| ==>
                  b[j] == Message(if j == 0 then pending else 0, NoteOn, 0, ons[j - |offs|], 64))
  {
    var offs := Ascending(prev - cur);
    var ons := Ascending(cur - prev);
    AscendingIs(prev - cur);
    AscendingIs(cur - prev);
    var b := StepBlock(prev, cur, pending);
    var c := Carried(offs, pending);
    forall j | 0 <= j < |offs|
      ensures b[j] == NoteOffMessage(if j == 0 then pending else 0, 0, offs[j])
    {
      NoteMessagesAt(offs, false, pending, j);
    }
    forall j | |offs| <= j < |b|
      ensures b[j] == Message(if j == 0 then pending else 0, NoteOn, 0, ons[j - |offs|], 64)
    {
      NoteMessagesAt(ons, true, c, j - |offs|);
    }
  }

  /** Within a step only the first message carries time. */
  lemma StepBlockDeltas(prev: set<int>, cur: set<int>, pending: nat)
    ensures var b := StepBlock(prev, cur, pending);
            forall j :: 0 <= j < |b| ==> b[j].delta == if j == 0 then pending else 0
  {
    StepBlockShape(prev, cur, pending);
  }

  // ---------------------------------------------------------------------
  // Replaying the messages: nothing is left sounding
  // ---------------------------------------------------------------------

  /** The pitch set after one message: a note start adds its pitch, a note end removes it. */
  function Apply(s: set<int>, m: Message): set<int> {
    if StartsNote(m) then s + {m.note} else if EndsNote(m) then s - {m.note} else s
  }

  /** The pitches sounding after `ms`, starting from `s`. */
  function Play(s: set<int>, ms: seq<Message>): set<int>
    decreases |ms|
  {
    if ms == [] then s else Play(Apply(s, ms[0]), ms[1..])
  }

  function ElemsOf(notes: seq<int>): set<int> {
    set x | x in notes
  }

  lemma {:induction false} PlayAppend(s: set<int>, a: seq<Message>, b: seq<Message>)
    ensures Play(s, a + b) == Play(Play(s, a), b)
    decreases |a|
  {
    if a != [] {
      assert (a + b)[1..] == a[1..] + b;
      PlayAppend(Apply(s, a[0]), a[1..], b);
    } else {
      assert a + b == b;
    }
  }

  /** Writing `note_on`s adds their pitches; writing `note_off`s removes them. */
  lemma {:induction false} PlayNotes(s: set<int>, notes: seq<int>, on: bool, pending: nat)
    ensures Play(s, NoteMessages(notes, on, pending)) == if on then s + ElemsOf(notes) else s - ElemsOf(notes)
    decreases |notes|
  {
    if notes != [] {
      var t := Apply(s, NoteMessage(on, pending, notes[0]));
      PlayNotes(t, notes[1..], on, 0);
      assert ElemsOf(notes) == {notes[0]} + ElemsOf(notes[1..]);
    } else {
      assert ElemsOf(notes) == {};
    }
  }

  lemma ElemsOfAscending(s: set<int>)
    ensures ElemsOf(Ascending(s)) == s
  {
    AscendingIs(s);
  }

  /** After a step exactly the pitches of the step sound. */
  lemma PlayStep(prev: set<int>, cur: set<int>, pending: nat)
    ensures Play(prev, StepBlock(prev, cur, pending)) == cur
  {
    var offs := Ascending(prev - cur);
    var ons := Ascending(cur - prev);
    PlayAppend(prev, NoteMessages(offs, false, pending), NoteMessages(ons, true, Carried(offs, pending)));
    PlayNotes(prev, offs, false, pending);
    PlayNotes(prev - (prev - cur), ons, true, Carried(offs, pending));
    ElemsOfAscending(prev - cur);
    ElemsOfAscending(cur - prev);
  }

  /** After `i` steps the pitches of step `i - 1` sound. */
  lemma {:induction false} PlayBody(c: Chorale, i: nat, step: nat)
    requires i <= |c|
    ensures Play({}, Body(c, i, step)) == Active(c, i)
  {
    if i > 0 {
      var before := Body(c, i - 1, step);
      var prev := Active(c, i - 1);
      var block := StepBlock(prev, InRange(c[i - 1]), Pending(i - 1, step));
      assert Body(c, i, step) == before + block;
      assert Play({}, before + block) == Play(Play({}, before), block) by {
        PlayAppend({}, before, block);
      }
      assert Play({}, before) == prev by {
        PlayBody(c, i - 1, step);
      }
      assert Play(prev, block) == InRange(c[i - 1]) by {
        PlayStep(prev, InRange(c[i - 1]), Pending(i - 1, step));
      }
    }
  }

  /** A chorale ends with nothing sounding. */
  lemma ChoraleSilent(c: Chorale, step: nat)
    ensures Play({}, EncodeChorale(c, step)) == {}
  {
    var held := Ascending(Active(c, |c|));
    PlayBody(c, |c|, step);
    PlayAppend({}, Body(c, |c|, step), NoteMessages(held, false, Pending(|c|, step)));
    PlayNotes(Active(c, |c|), held, false, Pending(|c|, step));
    ElemsOfAscending(Active(c, |c|));
  }

  // ---------------------------------------------------------------------
  // Counting: as many note ends as note starts
  // ---------------------------------------------------------------------

  /** The number of note starts (`on`) or note ends (`!on`) in `ms`. */
  function Count(ms: seq<Message>, on: bool): nat
    decreases |ms|
  {
    if ms == [] then 0
    else (if (if on then StartsNote(ms[0]) else EndsNote(ms[0])) then 1 else 0) + Count(ms[1..], on)
  }

  lemma {:induction false} CountAppend(a: seq<Message>, b: seq<Message>, on: bool)
    ensures Count(a + b, on) == Count(a, on) + Count(b, on)
    decreases |a|
  {
    if a != [] {
      assert (a + b)[1..] == a[1..] + b;
      CountAppend(a[1..], b, on);
    } else {
      assert a + b == b;
    }
  }

  lemma {:induction false} CountNotes(notes: seq<int>, on: bool, pending: nat)
    ensures Count(NoteMessages(notes, on, pending), on) == |notes|
    ensures Count(NoteMessages(notes, on, pending), !on) == 0
    decreases |notes|
  {
    if notes != [] {
      CountNotes(notes[1..], on, 0);
    }
  }

  lemma CountStep(prev: set<int>, cur: set<int>, pending: nat)
    ensures Count(StepBlock(prev, cur, pending), true) == |cur - prev|
    ensures Count(StepBlock(prev, cur, pending), false) == |prev - cur|
  {
    var offs := Ascending(prev - cur);
    var ons := Ascending(cur - prev);
    AscendingIs(prev - cur);
    AscendingIs(cur - prev);
    CountAppend(NoteMessages(offs, false, pending), NoteMessages(ons, true, Carried(offs, pending)), true);
    CountAppend(NoteMessages(offs, false, pending), NoteMessages(ons, true, Carried(offs, pending)), false);
    CountNotes(offs, false, pending);
    CountNotes(ons, true, Carried(offs, pending));
  }

  lemma Exchange(prev: set<int>, cur: set<int>)
    ensures |cur - prev| + |prev| == |prev - cur| + |cur|
  {
    assert prev == (prev - cur) + (prev * cur);
    assert cur == (cur - prev) + (prev * cur);
  }

  /** After `i` steps, the starts outnumber the ends by the pitches still sounding. */
  lemma {:induction false} CountBody(c: Chorale, i: nat, step: nat)
    requires i <= |c|
    ensures Count(Body(c, i, step), true) == Count(Body(c, i, step), false) + |Active(c, i)|
  {
    if i > 0 {
      var prev := Active(c, i - 1);
      var cur := InRange(c[i - 1]);
      var blk := StepBlock(prev, cur, Pending(i - 1, step));
      CountBody(c, i - 1, step);
      CountAppend(Body(c, i - 1, step), blk, true);
      CountAppend(Body(c, i - 1, step), blk, false);
      CountStep(prev, cur, Pending(i - 1, step));
      Exchange(prev, cur);
    }
  }

  /** Every `note_on` of a chorale is matched by a `note_off`. */
  lemma ChoraleBalanced(c: Chorale, step: nat)
    ensures Count(EncodeChorale(c, step), true) == Count(EncodeChorale(c, step), false)
  {
    var held := Ascending(Active(c, |c|));
    AscendingIs(Active(c, |c|));
    CountBody(c, |c|, step);
    CountAppend(Body(c, |c|, step), NoteMessages(held, false, Pending(|c|, step)), true);
    CountAppend(Body(c, |c|, step), NoteMessages(held, false, Pending(|c|, step)), false);
    CountNotes(held, false, Pending(|c|, step));
  }

  // ---------------------------------------------------------------------
  // Deltas and pitches of the whole track
  // ---------------------------------------------------------------------

  /** Every delta is zero or one whole step. */
  predicate DeltasIn(ms: seq<Message>, step: nat) {
    forall k :: 0 <= k < |ms| ==> ms[k].delta == 0 || ms[k].delta == step
  }

  /** Every pitch written is a piano key. */
  predicate PianoKeys(ms: seq<Message>) {
    forall k :: 0 <= k < |ms| ==> 21 <= ms[k].note <= 108
  }

  lemma DeltasAppend(a: seq<Message>, b: seq<Message>, step: nat)
    requires DeltasIn(a, step) && DeltasIn(b, step)
    ensures DeltasIn(a + b, step)
  {
    forall k | 0 <= k < |a + b|
      ensures (a + b)[k].delta == 0 || (a + b)[k].delta == step
    {
      if k >= |a| {
        assert (a + b)[k] == b[k - |a|];
      }
    }
  }

  lemma KeysAppend(a: seq<Message>, b: seq<Message>)
    requires PianoKeys(a) && PianoKeys(b)
    ensures PianoKeys(a + b)
  {
    forall k | 0 <= k < |a + b|
      ensures 21 <= (a + b)[k].note <= 108
    {
      if k >= |a| {
        assert (a + b)[k] == b[k - |a|];
      }
    }
  }

  lemma NotesDeltasKeys(notes: seq<int>, on: bool, pending: nat, step: nat)
    requires pending == 0 || pending == step
    ensures DeltasIn(NoteMessages(notes, on, pending), step)
    ensures (forall n :: n in notes ==> 21 <= n <= 108) ==> PianoKeys(NoteMessages(notes, on, pending))
  {
    var ms := NoteMessages(notes, on, pending);
    forall k | 0 <= k < |notes|
      ensures ms[k].delta == 0 || ms[k].delta == step
      ensures ms[k].note == notes[k]
    {
      NoteMessagesAt(notes, on, pending, k);
    }
    if forall n :: n in notes ==> 21 <= n <= 108 {
      forall k | 0 <= k < |ms|
        ensures 21 <= ms[k].note <= 108
      {
        assert notes[k] in notes;
      }
    }
  }

  lemma ActiveKeys(c: Chorale, i: nat)
    requires i <= |c|
    ensures forall n :: n in Active(c, i) ==> 21 <= n <= 108
  {
  }

  lemma StepDeltasKeys(c: Chorale, i: nat, step: nat)
    requires i < |c|
    ensures var b := StepBlock(Active(c, i), InRange(c[i]), Pending(i, step));
            DeltasIn(b, step) && PianoKeys(b)
  {
    var prev := Active(c, i);
    var cur := InRange(c[i]);
    var p := Pending(i, step);
    var offs := Ascending(prev - cur);
    var ons := Ascending(cur - prev);
    AscendingIs(prev - cur);
    AscendingIs(cur - prev);
    ActiveKeys(c, i);
    NotesDeltasKeys(offs, false, p, step);
    NotesDeltasKeys(ons, true, Carried(offs, p), step);
    DeltasAppend(NoteMessages(offs, false, p), NoteMessages(ons, true, Carried(offs, p)), step);
    KeysAppend(NoteMessages(offs, false, p), NoteMessages(ons, true, Carried(offs, p)));
  }

  lemma {:induction false} BodyDeltasKeys(c: Chorale, i: nat, step: nat)
    requires i <= |c|
    ensures DeltasIn(Body(c, i, step), step) && PianoKeys(Body(c, i, step))
  {
    if i > 0 {
      var b := StepBlock(Active(c, i - 1), InRange(c[i - 1]), Pending(i - 1, step));
      BodyDeltasKeys(c, i - 1, step);
      StepDeltasKeys(c, i - 1, step);
      DeltasAppend(Body(c, i - 1, step), b, step);
      KeysAppend(Body(c, i - 1, step), b);
    }
  }

  /** A chorale's messages have deltas of zero or one step and only piano pitches. */
  lemma ChoraleDeltasKeys(c: Chorale, step: nat)
    ensures DeltasIn(EncodeChorale(c, step), step) && PianoKeys(EncodeChorale(c, step))
  {
    var held := Ascending(Active(c, |c|));
    AscendingIs(Active(c, |c|));
    ActiveKeys(c, |c|);
    BodyDeltasKeys(c, |c|, step);
    NotesDeltasKeys(held, false, Pending(|c|, step), step);
    DeltasAppend(Body(c, |c|, step), NoteMessages(held, false, Pending(|c|, step)), step);
    KeysAppend(Body(c, |c|, step), NoteMessages(held, false, Pending(|c|, step)));
  }

  lemma {:induction false} AllDeltasKeys(cs: seq<Chorale>, step: nat)
    ensures DeltasIn(EncodeAll(cs, step), step) && PianoKeys(EncodeAll(cs, step))
    decreases |cs|
  {
    if cs != [] {
      var last := cs[|cs| - 1];
      AllDeltasKeys(cs[..|cs| - 1], step);
      ChoraleDeltasKeys(last, step);
      DeltasAppend(EncodeAll(cs[..|cs| - 1], step), EncodeChorale(last, step), step);
      KeysAppend(EncodeAll(cs[..|cs| - 1], step), EncodeChorale(last, step));
    }
  }

  /**
    The track opens with `set_tempo` at delta 0; after it every delta is 0
    or one step and every pitch is a piano key.
  */
  lemma TrackShape(data: DataSet, res: Resolution, tempo: int)
    requires JsbTrack(data, res, tempo).Ok?
    ensures var t := JsbTrack(data, res, tempo).value;
            && tempo != 0
            && t[0] == TempoMessage(TempoMicros(tempo).value)
            && DeltasIn(t, StepTicks(res))
            && PianoKeys(t[1..])
  {
    var cs := SelectSequences(data).value;
    var step := StepTicks(res);
    var head := [TempoMessage(TempoMicros(tempo).value)];
    AllDeltasKeys(cs, step);
    DeltasAppend(head, EncodeAll(cs, step), step);
    assert (head + EncodeAll(cs, step))[1..] == EncodeAll(cs, step);
  }

  // ---------------------------------------------------------------------
  // The pending delta: as written and as intended
  // ---------------------------------------------------------------------

  lemma AscendingNone()
    ensures Ascending({}) == []
  {
    AscendingIs({});
  }

  lemma AscendingOne(n: int)
    ensures Ascending({n}) == [n]
  {
    AscendingIs({n});
    assert Ascending({n})[0] in {n};
  }

  lemma InRangeOne(n: int)
    requires 21 <= n <= 108
    ensures InRange([n]) == {n}
  {
  }

  /** A pitch that starts from silence: one `note_on` carrying the pending time. */
  lemma StepFromSilence(n: int, pending: nat)
    ensures StepBlock({}, {n}, pending) == [NoteMessage(true, pending, n)]
  {
    assert {} - {n} == {} && {n} - {} == {n};
    AscendingNone();
    AscendingOne(n);
  }

  /** A pitch held into the next step writes nothing. */
  lemma StepHeld(n: int, pending: nat)
    ensures StepBlock({n}, {n}, pending) == []
  {
    assert {n} - {n} == {};
    AscendingNone();
  }

  /** One pitch replaced by another: its `note_off`, then the new `note_on`. */
  lemma StepChange(a: int, b: int, pending: nat)
    requires a != b
    ensures StepBlock({a}, {b}, pending) == [NoteMessage(false, pending, a), NoteMessage(true, 0, b)]
  {
    assert {a} - {b} == {a} && {b} - {a} == {b};
    AscendingOne(a);
    AscendingOne(b);
  }

  /** A held pitch, then a change: middle C for two steps, then D. */
  function HeldThenChange(): Chorale {
    [[60], [60], [62]]
  }

  /**
    As written, the step in which middle C is held writes nothing, and its
    time is dropped when `current_time` is set to one step again: the
    `note_off` of middle C lands at tick 120, although the change happens at
    step 2, tick 240.
  */
  lemma HeldStepLosesTime()
    ensures EncodeChorale(HeldThenChange(), 120)
            == [NoteMessage(true, 0, 60), NoteMessage(false, 120, 60), NoteMessage(true, 0, 62), NoteMessage(false, 120, 62)]
    ensures PrefixSum(EncodeChorale(HeldThenChange(), 120), 2) == 120
  {
    var c := HeldThenChange();
    InRangeOne(60);
    InRangeOne(62);
    assert Active(c, 1) == {60} && Active(c, 2) == {60} && Active(c, 3) == {62};
    StepFromSilence(60, 0);
    StepHeld(60, 120);
    StepChange(60, 62, 120);
    AscendingOne(62);
    assert Body(c, 1, 120) == [NoteMessage(true, 0, 60)];
    assert Body(c, 2, 120) == [NoteMessage(true, 0, 60)];
    assert Body(c, 3, 120) == [NoteMessage(true, 0, 60), NoteMessage(false, 120, 60), NoteMessage(true, 0, 62)];
  }

  /** The progress of the corrected encoder: the messages so far and the time since the last one. */
  datatype Progress = Progress(msgs: seq<Message>, pending: nat)

  /**
    The encoder as evidently intended: after a step, one more step is added
    to whatever time is still pending, so a step that writes nothing passes
    its time on.
  */
  ghost function StepsFixed(c: Chorale, i: nat, step: nat): Progress
    requires i <= |c|
  {
    if i == 0 then Progress([], 0)
    else
      var p := StepsFixed(c, i - 1, step);
      var blk := StepBlock(Active(c, i - 1), InRange(c[i - 1]), p.pending);
      Progress(p.msgs + blk, (if blk == [] then p.pending else 0) + step)
  }

  ghost function EncodeChoraleFixed(c: Chorale, step: nat): seq<Message> {
    var p := StepsFixed(c, |c|, step);
    p.msgs + NoteMessages(Ascending(Active(c, |c|)), false, p.pending)
  }

  /** Message `k` of `ms` sits at absolute tick `t`. */
  predicate AtTick(ms: seq<Message>, k: nat, t: nat) {
    k < |ms| && PrefixSum(ms, k + 1) == t
  }

  /** Messages appended after `ms` whose first carries `pending` and the rest nothing all sit `pending` after the end of `ms`. */
  lemma {:induction false} BlockTickAt(ms: seq<Message>, blk: seq<Message>, pending: nat, k: nat)
    requires forall j :: 0 <= j < |blk| ==> blk[j].delta == if j == 0 then pending else 0
    requires |ms| <= k < |ms| + |blk|
    ensures AtTick(ms + blk, k, PrefixSum(ms, |ms|) + pending)
    decreases k
  {
    if k == |ms| {
      PrefixSumPrefix(ms, blk, |ms|);
      assert (ms + blk)[|ms|] == blk[0];
    } else {
      BlockTickAt(ms, blk, pending, k - 1);
      assert (ms + blk)[k] == blk[k - |ms|];
    }
  }

  lemma BlockTicks(ms: seq<Message>, blk: seq<Message>, pending: nat, r: seq<Message>, t: nat)
    requires forall j :: 0 <= j < |blk| ==> blk[j].delta == if j == 0 then pending else 0
    requires r == ms + blk && t == PrefixSum(ms, |ms|) + pending
    ensures forall k :: |ms| <= k < |r| ==> AtTick(r, k, t)
    ensures PrefixSum(r, |r|) == PrefixSum(ms, |ms|) + (if blk == [] then 0 else pending)
  {
    forall k | |ms| <= k < |r|
      ensures AtTick(r, k, t)
    {
      BlockTickAt(ms, blk, pending, k);
    }
    if blk == [] {
      assert r == ms;
    } else {
      assert AtTick(r, |r| - 1, t);
    }
  }

  /** The corrected clock: after `i` steps the written time plus the pending time is `i` steps. */
  lemma {:induction false} FixedClock(c: Chorale, i: nat, step: nat)
    requires i <= |c|
    ensures var p := StepsFixed(c, i, step); PrefixSum(p.msgs, |p.msgs|) + p.pending == i * step
  {
    if i > 0 {
      var q := StepsFixed(c, i - 1, step);
      var blk := StepBlock(Active(c, i - 1), InRange(c[i - 1]), q.pending);
      FixedClock(c, i - 1, step);
      StepBlockDeltas(Active(c, i - 1), InRange(c[i - 1]), q.pending);
      BlockTicks(q.msgs, blk, q.pending, q.msgs + blk, PrefixSum(q.msgs, |q.msgs|) + q.pending);
      assert (i - 1) * step + step == i * step;
    }
  }

  /** As intended, every message written for step `i` sits at tick `i * step`. */
  lemma FixedStepTicks(c: Chorale, i: nat, step: nat)
    requires i < |c|
    ensures var q := StepsFixed(c, i, step).msgs;
            var r := StepsFixed(c, i + 1, step).msgs;
            && |q| <= |r|
            && r[..|q|] == q
            && forall k :: |q| <= k < |r| ==> AtTick(r, k, i * step)
  {
    var q := StepsFixed(c, i, step);
    var blk := StepBlock(Active(c, i), InRange(c[i]), q.pending);
    FixedClock(c, i, step);
    StepBlockDeltas(Active(c, i), InRange(c[i]), q.pending);
    BlockTicks(q.msgs, blk, q.pending, q.msgs + blk, i * step);
    assert StepsFixed(c, i + 1, step).msgs == q.msgs + blk;
    assert (q.msgs + blk)[..|q.msgs|] == q.msgs;
  }

  /** As intended, the closing `note_off`s sit one step after the last step. */
  lemma FixedEndTicks(c: Chorale, step: nat)
    ensures var q := StepsFixed(c, |c|, step).msgs;
            var r := EncodeChoraleFixed(c, step);
            && |q| <= |r|
            && forall k :: |q| <= k < |r| ==> AtTick(r, k, |c| * step)
  {
    var q := StepsFixed(c, |c|, step);
    var held := NoteMessages(Ascending(Active(c, |c|)), false, q.pending);
    FixedClock(c, |c|, step);
    forall k | 0 <= k < |held|
      ensures held[k].delta == if k == 0 then q.pending else 0
    {
      NoteMessagesAt(Ascending(Active(c, |c|)), false, q.pending, k);
    }
    BlockTicks(q.msgs, held, q.pending, q.msgs + held, |c| * step);
  }

  /** Corrected, the same chorale puts the `note_off` of middle C at tick 240. */
  lemma HeldStepKeepsTime()
    ensures EncodeChoraleFixed(HeldThenChange(), 120)
            == [NoteMessage(true, 0, 60), NoteMessage(false, 240, 60), NoteMessage(true, 0, 62), NoteMessage(false, 120, 62)]
    ensures PrefixSum(EncodeChoraleFixed(HeldThenChange(), 120), 2) == 240
  {
    var c := HeldThenChange();
    InRangeOne(60);
    InRangeOne(62);
    assert Active(c, 1) == {60} && Active(c, 2) == {60} && Active(c, 3) == {62};
    StepFromSilence(60, 0);
    StepHeld(60, 120);
    StepChange(60, 62, 240);
    AscendingOne(62);
    assert StepsFixed(c, 1, 120) == Progress([NoteMessage(true, 0, 60)], 120);
    assert StepsFixed(c, 2, 120) == Progress([NoteMessage(true, 0, 60)], 240);
    assert StepsFixed(c, 3, 120)
           == Progress([NoteMessage(true, 0, 60), NoteMessage(false, 240, 60), NoteMessage(true, 0, 62)], 120);
  }
}
