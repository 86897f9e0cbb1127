/**
  `cut_midi_at_16th`: every track is copied up to a tick-exact cut. A
  message before the cut is kept; at the cut a sounding `note_on` is dropped
  and everything else kept; at the first message past the cut every note
  still sounding is closed by a synthesized `note_off`, and the track stops.
  An `end_of_track` is always appended.

  The dictionary `active_notes` keyed by `(channel, note)` is modelled as an
  insertion-ordered sequence of entries with distinct keys, because the order
  of `items()` fixes the order of the synthesized offs.
*/
module Cutter {
  import opened Midi

  // ---------------------------------------------------------------------
  // The active-note tracker
  // ---------------------------------------------------------------------

  datatype Held = Held(channel: int, note: int, velocity: int)

  /** `active_notes`, in insertion order. */
  type Tracker = seq<Held>

  function KeyOf(h: Held): (int, int) {
    (h.channel, h.note)
  }

  function Keys(tr: Tracker): (ks: set<(int, int)>)
    ensures forall i :: 0 <= i < |tr| ==> KeyOf(tr[i]) in ks
    ensures forall k :: k in ks ==> exists i :: 0 <= i < |tr| && KeyOf(tr[i]) == k
  {
    set i | 0 <= i < |tr| :: KeyOf(tr[i])
  }

  predicate DistinctKeys(tr: Tracker) {
    forall i, j :: 0 <= i < j < |tr| ==> KeyOf(tr[i]) != KeyOf(tr[j])
  }

  /** The first position from `i` on holding the key, or the length when there is none. */
  function KeyIndexFrom(tr: Tracker, key: (int, int), i: nat): (k: nat)
    requires i <= |tr|
    ensures i <= k <= |tr|
    ensures k < |tr| ==> KeyOf(tr[k]) == key
    ensures forall j :: i <= j < k ==> KeyOf(tr[j]) != key
    decreases |tr| - i
  {
    if i == |tr| || KeyOf(tr[i]) == key then i else KeyIndexFrom(tr, key, i + 1)
  }

  /** The position of the key, or the length when it is absent. */
  function KeyIndex(tr: Tracker, key: (int, int)): (i: nat)
    ensures i <= |tr| && (i < |tr| ==> KeyOf(tr[i]) == key)
    ensures i == |tr| <==> key !in Keys(tr)
  {
    KeyIndexFrom(tr, key, 0)
  }

  /**
    `active_notes[(channel, note)] = velocity`: an existing key keeps its
    position and takes the new velocity; a new key goes last.
  */
  function Put(tr: Tracker, channel: int, note: int, velocity: int): (r: Tracker)
    requires DistinctKeys(tr)
    ensures DistinctKeys(r)
    ensures Keys(r) == Keys(tr) + {(channel, note)}
    ensures KeyIndex(tr, (channel, note)) < |tr| ==> r == tr[KeyIndex(tr, (channel, note)) := Held(channel, note, velocity)]
    ensures KeyIndex(tr, (channel, note)) == |tr| ==> r == tr + [Held(channel, note, velocity)]
  {
    var i := KeyIndex(tr, (channel, note));
    if i < |tr| then
      var r := tr[i := Held(channel, note, velocity)];
      assert forall j :: 0 <= j < |r| ==> KeyOf(r[j]) == KeyOf(tr[j]);
      assert Keys(r) == Keys(tr);
      r
    else
      var r := tr + [Held(channel, note, velocity)];
      PutNew(tr, channel, note, velocity);
      r
  }

  lemma PutNew(tr: Tracker, channel: int, note: int, velocity: int)
    requires DistinctKeys(tr) && (channel, note) !in Keys(tr)
    ensures DistinctKeys(tr + [Held(channel, note, velocity)])
    ensures Keys(tr + [Held(channel, note, velocity)]) == Keys(tr) + {(channel, note)}
  {
    var r := tr + [Held(channel, note, velocity)];
    assert forall j :: 0 <= j < |tr| ==> r[j] == tr[j];
    assert KeyOf(r[|tr|]) == (channel, note);
  }

  /** `del active_notes[key]` when the key is present; the other entries keep their order. */
  function Remove(tr: Tracker, channel: int, note: int): (r: Tracker)
    requires DistinctKeys(tr)
    ensures DistinctKeys(r)
    ensures Keys(r) == Keys(tr) - {(channel, note)}
    ensures KeyIndex(tr, (channel, note)) < |tr| ==>
              r == tr[..KeyIndex(tr, (channel, note))] + tr[KeyIndex(tr, (channel, note)) + 1..]
    ensures KeyIndex(tr, (channel, note)) == |tr| ==> r == tr
  {
    var i := KeyIndex(tr, (channel, note));
    if i < |tr| then
      RemoveAt(tr, i);
      tr[..i] + tr[i + 1..]
    else
      tr
  }

  lemma RemoveAt(tr: Tracker, i: nat)
    requires DistinctKeys(tr) && i < |tr|
    ensures DistinctKeys(tr[..i] + tr[i + 1..])
    ensures Keys(tr[..i] + tr[i + 1..]) == Keys(tr) - {KeyOf(tr[i])}
  {
    var r := tr[..i] + tr[i + 1..];
    assert forall j :: 0 <= j < i ==> r[j] == tr[j];
    assert forall j :: i <= j < |r| ==> r[j] == tr[j + 1];
    forall k | k in Keys(tr) - {KeyOf(tr[i])}
      ensures k in Keys(r)
    {
      var j :| 0 <= j < |tr| && KeyOf(tr[j]) == k;
      if j < i {
        assert KeyOf(r[j]) == k;
      } else {
        assert KeyOf(r[j - 1]) == k;
      }
    }
  }

  /** How one kept message changes the tracker. */
  function Track(tr: Tracker, m: Message): (r: Tracker)
    requires DistinctKeys(tr)
    ensures DistinctKeys(r)
  {
    if StartsNote(m) then Put(tr, m.channel, m.note, m.velocity)
    else if EndsNote(m) then Remove(tr, m.channel, m.note)
    else tr
  }

  // ---------------------------------------------------------------------
  // The cut, as written
  // ---------------------------------------------------------------------

  /** `int(cut_16th_index * (ticks_per_beat / 4.0))`. */
  function CutTick(index: nat, ticksPerBeat: nat): nat {
    (index * ticksPerBeat) / 4
  }

  /** The output so far and the notes it leaves sounding. */
  datatype CutState = CutState(out: Track, active: Tracker)

  /**
    The state after the first `k` messages, none of them past the cut: a
    message before the cut is kept, and one at the cut is kept unless it
    starts a note.
  */
  function Keep(t: Track, cut: nat, k: nat): (s: CutState)
    requires k <= |t|
    ensures DistinctKeys(s.active)
  {
    CutState(KeptOut(t, cut, k), KeptActive(t, cut, k))
  }

  /** Message `k - 1` is kept: it is before the cut, or on it without starting a note. */
  predicate Kept(t: Track, cut: nat, k: nat)
    requires 0 < k <= |t|
  {
    PrefixSum(t, k) < cut || !StartsNote(t[k - 1])
  }

  function KeptOut(t: Track, cut: nat, k: nat): Track
    requires k <= |t|
  {
    if k == 0 then []
    else if Kept(t, cut, k) then KeptOut(t, cut, k - 1) + [t[k - 1]]
    else KeptOut(t, cut, k - 1)
  }

  function KeptActive(t: Track, cut: nat, k: nat): (tr: Tracker)
    requires k <= |t|
    ensures DistinctKeys(tr)
  {
    if k == 0 then []
    else if Kept(t, cut, k) then Track(KeptActive(t, cut, k - 1), t[k - 1])
    else KeptActive(t, cut, k - 1)
  }

  /** Message `j` is not past the cut. */
  predicate NotPast(t: Track, cut: nat, j: nat)
    requires j < |t|
  {
    PrefixSum(t, j + 1) <= cut
  }

  /** The first message from `i` on whose absolute tick is past the cut, or the length. */
  function FirstPast(t: Track, cut: nat, i: nat): (f: nat)
    requires i <= |t|
    ensures i <= f <= |t|
    ensures forall j :: i <= j < f ==> NotPast(t, cut, j)
    ensures f < |t| ==> PrefixSum(t, f + 1) > cut
    decreases |t| - i
  {
    if i == |t| || PrefixSum(t, i + 1) > cut then i else FirstPast(t, cut, i + 1)
  }

  lemma FirstPastIs(t: Track, cut: nat, i: nat, f: nat)
    requires i <= f <= |t|
    requires forall j :: i <= j < f ==> NotPast(t, cut, j)
    requires f < |t| ==> PrefixSum(t, f + 1) > cut
    ensures FirstPast(t, cut, i) == f
    decreases f - i
  {
    if i < f {
      assert NotPast(t, cut, i);
      FirstPastIs(t, cut, i + 1, f);
    }
  }

  /** The offs that silence the tracked notes: the first carries `delta`, the rest 0. */
  function Closers(tr: Tracker, delta: nat): (r: Track)
    ensures |r| == |tr|
    ensures forall i :: 0 <= i < |tr| ==>
              r[i] == NoteOffMessage(if i == 0 then delta else 0, tr[i].channel, tr[i].note)
  {
    seq(|tr|, i requires 0 <= i < |tr| => NoteOffMessage(if i == 0 then delta else 0, tr[i].channel, tr[i].note))
  }

  /** The track `cut_midi_at_16th` writes for input track `t`. */
  function CutTrackSpec(t: Track, cut: nat): Track {
    var f := FirstPast(t, cut, 0);
    var s := Keep(t, cut, f);
    assert f == 0 || NotPast(t, cut, f - 1);
    s.out + (if f < |t| then Closers(s.active, cut - PrefixSum(t, f)) else []) + [EndOfTrackMessage()]
  }

  /** The per-track loop of `cut_midi_at_16th`. */
  method CutTrack(t: Track, cut: nat) returns (newTrack: Track)
    ensures newTrack == CutTrackSpec(t, cut)
  {
    newTrack := [];
    var currentTime := 0;
    var active: Tracker := [];
    var i := 0;
    while i < |t|
      invariant 0 <= i <= |t|
      invariant currentTime == PrefixSum(t, i)
      invariant forall j :: 0 <= j < i ==> NotPast(t, cut, j)
      invariant CutState(newTrack, active) == Keep(t, cut, i)
    {
      var msg := t[i];
      currentTime := currentTime + msg.delta;
      if currentTime <= cut {
        newTrack, active := Admit(t, cut, i, currentTime, newTrack, active);
      } else {
        assert i == 0 || NotPast(t, cut, i - 1);
        var remainingDelta := cut - (currentTime - msg.delta);
        FirstPastIs(t, cut, 0, i);
        newTrack := Close(newTrack, active, remainingDelta);
        break;
      }
      i := i + 1;
    }
    if i == |t| {
      FirstPastIs(t, cut, 0, i);
    }
    newTrack := newTrack + [EndOfTrackMessage()];
  }

  /**
    Cases 1 and 2 of the loop: message `i`, at `currentTime`, is before the
    cut or on it.
  */
  method Admit(t: Track, cut: nat, i: nat, currentTime: nat, track: Track, tr: Tracker)
    returns (newTrack: Track, active: Tracker)
    requires i < |t| && currentTime == PrefixSum(t, i + 1) && currentTime <= cut
    requires CutState(track, tr) == Keep(t, cut, i)
    ensures CutState(newTrack, active) == Keep(t, cut, i + 1)
  {
    var msg := t[i];
    newTrack, active := track, tr;
    if currentTime < cut {
      newTrack := newTrack + [msg];
      if StartsNote(msg) {
        active := Put(active, msg.channel, msg.note, msg.velocity);
      } else if EndsNote(msg) {
        active := Remove(active, msg.channel, msg.note);
      }
    } else {
      if !StartsNote(msg) {
        newTrack := newTrack + [msg];
        if EndsNote(msg) {
          active := Remove(active, msg.channel, msg.note);
        }
      }
    }
  }

  /** The loop over `active_notes.items()` that appends the synthesized offs. */
  method Close(track: Track, active: Tracker, remainingDelta: nat) returns (newTrack: Track)
    ensures newTrack == track + Closers(active, remainingDelta)
  {
    newTrack := track;
    var first := true;
    for j := 0 to |active|
      invariant first == (j == 0)
      invariant newTrack == track + Closers(active[..j], remainingDelta)
    {
      var delta := if first then remainingDelta else 0;
      newTrack := newTrack + [NoteOffMessage(delta, active[j].channel, active[j].note)];
      first := false;
      assert Closers(active[..j + 1], remainingDelta) == Closers(active[..j], remainingDelta) + [Closers(active, remainingDelta)[j]];
    }
    assert active[..|active|] == active;
  }

  /** `cut_midi_at_16th` over the tracks of a file: one output track per input track. */
  method CutMidi(tracks: seq<Track>, ticksPerBeat: nat, cutIndex: nat) returns (out: seq<Track>)
    ensures |out| == |tracks|
    ensures forall i :: 0 <= i < |tracks| ==> out[i] == CutTrackSpec(tracks[i], CutTick(cutIndex, ticksPerBeat))
  {
    var cut := CutTick(cutIndex, ticksPerBeat);
    out := [];
    for i := 0 to |tracks|
      invariant |out| == i
      invariant forall j :: 0 <= j < i ==> out[j] == CutTrackSpec(tracks[j], cut)
    {
      var newTrack := CutTrack(tracks[i], cut);
      out := out + [newTrack];
    }
  }

  // ---------------------------------------------------------------------
  // What the cut leaves sounding
  // ---------------------------------------------------------------------

  /** The `(channel, note)` keys a track leaves sounding when its note events are replayed. */
  function SoundingKeys(t: Track): set<(int, int)> {
    if t == [] then {}
    else
      var s := SoundingKeys(t[..|t| - 1]);
      var m := t[|t| - 1];
      if StartsNote(m) then s + {(m.channel, m.note)}
      else if EndsNote(m) then s - {(m.channel, m.note)}
      else s
  }

  lemma SoundingSnoc(t: Track, m: Message)
    ensures SoundingKeys(t + [m]) ==
              if StartsNote(m) then SoundingKeys(t) + {(m.channel, m.note)}
              else if EndsNote(m) then SoundingKeys(t) - {(m.channel, m.note)}
              else SoundingKeys(t)
  {
    assert (t + [m])[..|t|] == t;
  }

  /** The tracker holds exactly the notes the kept output leaves sounding. */
  lemma {:induction false} KeepTracks(t: Track, cut: nat, k: nat)
    requires k <= |t|
    ensures Keys(KeptActive(t, cut, k)) == SoundingKeys(KeptOut(t, cut, k))
  {
    if k > 0 {
      KeepTracks(t, cut, k - 1);
      SoundingSnoc(KeptOut(t, cut, k - 1), t[k - 1]);
    }
  }

  lemma ClosersSnoc(tr: Tracker, delta: nat)
    requires tr != []
    ensures Closers(tr, delta) == Closers(tr[..|tr| - 1], delta)
              + [NoteOffMessage(if |tr| == 1 then delta else 0, tr[|tr| - 1].channel, tr[|tr| - 1].note)]
  {
  }

  lemma KeysSnoc(tr: Tracker)
    requires tr != []
    ensures Keys(tr) == Keys(tr[..|tr| - 1]) + {KeyOf(tr[|tr| - 1])}
  {
    var init := tr[..|tr| - 1];
    assert forall j :: 0 <= j < |init| ==> init[j] == tr[j];
  }

  /** The synthesized offs silence exactly the tracked notes. */
  lemma {:induction false} ClosersSilence(o: Track, tr: Tracker, delta: nat)
    ensures SoundingKeys(o + Closers(tr, delta)) == SoundingKeys(o) - Keys(tr)
    decreases |tr|
  {
    if tr == [] {
      assert o + Closers(tr, delta) == o;
    } else {
      var n := |tr| - 1;
      var init := tr[..n];
      var x := NoteOffMessage(if n == 0 then delta else 0, tr[n].channel, tr[n].note);
      var before := o + Closers(init, delta);
      assert o + Closers(tr, delta) == before + [x] by {
        ClosersSnoc(tr, delta);
      }
      assert SoundingKeys(before) == SoundingKeys(o) - Keys(init) by {
        ClosersSilence(o, init, delta);
      }
      assert SoundingKeys(before + [x]) == SoundingKeys(before) - {KeyOf(tr[n])} by {
        SoundingSnoc(before, x);
      }
      assert Keys(tr) == Keys(init) + {KeyOf(tr[n])} by {
        KeysSnoc(tr);
      }
    }
  }

  /** A track that passes the cut comes out with nothing left sounding. */
  lemma CutSilences(t: Track, cut: nat)
    requires FirstPast(t, cut, 0) < |t|
    ensures SoundingKeys(CutTrackSpec(t, cut)) == {}
  {
    var f := FirstPast(t, cut, 0);
    assert f == 0 || NotPast(t, cut, f - 1);
    var out := KeptOut(t, cut, f);
    var active := KeptActive(t, cut, f);
    var body := out + Closers(active, cut - PrefixSum(t, f));
    assert CutTrackSpec(t, cut) == body + [EndOfTrackMessage()];
    assert SoundingKeys(body) == {} by {
      KeepTracks(t, cut, f);
      ClosersSilence(out, active, cut - PrefixSum(t, f));
    }
    SoundingSnoc(body, EndOfTrackMessage());
  }

  /** A track that never passes the cut gets no synthesized offs. */
  lemma NeverPastNoOffs(t: Track, cut: nat)
    requires forall j :: 0 <= j < |t| ==> NotPast(t, cut, j)
    ensures CutTrackSpec(t, cut) == Keep(t, cut, |t|).out + [EndOfTrackMessage()]
  {
    FirstPastIs(t, cut, 0, |t|);
  }

  /** No `note_on` sits exactly on the cut among the first `k` messages. */
  predicate NoOnAtCut(t: Track, cut: nat, k: nat)
    requires k <= |t|
  {
    forall j :: 0 <= j < k ==> PrefixSum(t, j + 1) != cut || !StartsNote(t[j])
  }

  /** Without an onset on the cut, every message up to the crossing is copied unchanged. */
  lemma {:induction false} KeepCopies(t: Track, cut: nat, k: nat)
    requires k <= |t| && NoOnAtCut(t, cut, k)
    requires forall j :: 0 <= j < k ==> NotPast(t, cut, j)
    ensures KeptOut(t, cut, k) == t[..k]
  {
    if k > 0 {
      assert NotPast(t, cut, k - 1);
      assert Kept(t, cut, k);
      KeepCopies(t, cut, k - 1);
      assert t[..k] == t[..k - 1] + [t[k - 1]];
    }
  }

  /** Messages before the cut are copied unchanged, then come the offs, then `end_of_track`. */
  lemma CutCopiesBefore(t: Track, cut: nat)
    requires NoOnAtCut(t, cut, FirstPast(t, cut, 0))
    ensures t[..FirstPast(t, cut, 0)] <= CutTrackSpec(t, cut)
    ensures CutTrackSpec(t, cut)[|CutTrackSpec(t, cut)| - 1] == EndOfTrackMessage()
  {
    var f := FirstPast(t, cut, 0);
    KeepCopies(t, cut, f);
  }

  // ---------------------------------------------------------------------
  // Examples
  // ---------------------------------------------------------------------

  /** The cut of a track that passes it, given its parts. */
  lemma SpecPast(t: Track, cut: nat, f: nat, out: Track, active: Tracker, delta: nat)
    requires f == FirstPast(t, cut, 0) && f < |t|
    requires KeptOut(t, cut, f) == out && KeptActive(t, cut, f) == active
    requires PrefixSum(t, f) + delta == cut
    ensures CutTrackSpec(t, cut) == out + Closers(active, delta) + [EndOfTrackMessage()]
  {
  }

  /** One note on channel 0: on at tick 0, off `len` ticks later. */
  function OneNote(n: int, v: int, len: nat): Track {
    [Message(0, NoteOn, 0, n, v), Message(len, NoteOff, 0, n, 0)]
  }

  /** Cut inside the note: it is closed by a synthesized off on the cut. */
  lemma OneNoteCutInside(n: int, v: int, len: nat, cut: nat)
    requires v > 0 && 0 < cut < len
    ensures CutTrackSpec(OneNote(n, v, len), cut)
            == [Message(0, NoteOn, 0, n, v), NoteOffMessage(cut, 0, n), EndOfTrackMessage()]
  {
    var t := OneNote(n, v, len);
    assert PrefixSum(t, 1) == 0;
    assert PrefixSum(t, 2) == len;
    assert FirstPast(t, cut, 0) == 1 by {
      FirstPastIs(t, cut, 0, 1);
    }
    assert Kept(t, cut, 1);
    assert KeptOut(t, cut, 1) == [t[0]] by {
      assert KeptOut(t, cut, 0) == [];
    }
    assert KeptActive(t, cut, 1) == [Held(0, n, v)] by {
      assert KeptActive(t, cut, 0) == [];
    }
    SpecPast(t, cut, 1, [t[0]], [Held(0, n, v)], cut);
    assert Closers([Held(0, n, v)], cut) == [NoteOffMessage(cut, 0, n)];
  }

  /** Cut on or after the natural off: the off is kept and nothing is synthesized. */
  lemma OneNoteCutAtOff(n: int, v: int, len: nat, cut: nat)
    requires v > 0 && 0 < len <= cut
    ensures CutTrackSpec(OneNote(n, v, len), cut) == OneNote(n, v, len) + [EndOfTrackMessage()]
  {
    var t := OneNote(n, v, len);
    assert PrefixSum(t, 1) == 0;
    assert PrefixSum(t, 2) == len;
    assert NotPast(t, cut, 0) && NotPast(t, cut, 1);
    assert NoOnAtCut(t, cut, 2);
    NeverPastNoOffs(t, cut);
    KeepCopies(t, cut, 2);
    assert t[..2] == t;
  }

  /** A track whose own `end_of_track` comes before the cut ends up with two of them. */
  lemma EndOfTrackTwice(delta: nat, cut: nat)
    requires delta < cut
    ensures CutTrackSpec([Message(delta, Meta(EndOfTrack), 0, 0, 0)], cut)
            == [Message(delta, Meta(EndOfTrack), 0, 0, 0), EndOfTrackMessage()]
  {
    var t := [Message(delta, Meta(EndOfTrack), 0, 0, 0)];
    assert PrefixSum(t, 1) == delta;
    assert NotPast(t, cut, 0);
    NeverPastNoOffs(t, cut);
    KeepCopies(t, cut, 1);
    assert t[..1] == t;
  }

  // ---------------------------------------------------------------------
  // The lost delta of a dropped onset, and the corrected cut
  // ---------------------------------------------------------------------

  /** The input positions of the kept messages, in order. */
  function KeptIndex(t: Track, cut: nat, k: nat): (ix: seq<nat>)
    requires k <= |t|
    ensures forall j :: 0 <= j < |ix| ==> ix[j] < k
  {
    if k == 0 then []
    else if Kept(t, cut, k) then KeptIndex(t, cut, k - 1) + [k - 1]
    else KeptIndex(t, cut, k - 1)
  }

  /** The kept output is the input at the kept positions, each message unchanged. */
  lemma {:induction false} KeptOutIndex(t: Track, cut: nat, k: nat)
    requires k <= |t|
    ensures |KeptOut(t, cut, k)| == |KeptIndex(t, cut, k)|
    ensures forall j :: 0 <= j < |KeptIndex(t, cut, k)| ==> KeptOut(t, cut, k)[j] == t[KeptIndex(t, cut, k)[j]]
  {
    if k > 0 {
      KeptOutIndex(t, cut, k - 1);
    }
  }

  /** The absolute tick of the last kept message among the first `k`, or 0. */
  function LastKeptTick(t: Track, cut: nat, k: nat): (tick: nat)
    requires k <= |t|
    ensures tick <= PrefixSum(t, k)
  {
    if k == 0 then 0
    else if Kept(t, cut, k) then PrefixSum(t, k)
    else LastKeptTick(t, cut, k - 1)
  }

  /** The kept messages, each given the delta from the previous kept message. */
  function KeptOutFixed(t: Track, cut: nat, k: nat): Track
    requires k <= |t|
  {
    if k == 0 then []
    else if Kept(t, cut, k) then
      KeptOutFixed(t, cut, k - 1) + [t[k - 1].(delta := PrefixSum(t, k) - LastKeptTick(t, cut, k - 1))]
    else KeptOutFixed(t, cut, k - 1)
  }

  /**
    The cut with the time of a dropped onset carried over: kept messages are
    re-timed from the previous kept one, and the first synthesized off is
    timed from the last kept message, so that it falls on the cut.
  */
  function CutTrackFixed(t: Track, cut: nat): Track {
    var f := FirstPast(t, cut, 0);
    assert f == 0 || NotPast(t, cut, f - 1);
    var last := LastKeptTick(t, cut, f);
    KeptOutFixed(t, cut, f)
      + (if f < |t| then Closers(KeptActive(t, cut, f), cut - last) else [])
      + [EndOfTrackMessage()]
  }

  lemma PrefixSumSnoc(o: Track, x: Message)
    ensures PrefixSum(o + [x], |o| + 1) == PrefixSum(o, |o|) + x.delta
  {
    PrefixSumPrefix(o, [x], |o|);
  }

  lemma PrefixSumsKept(o: Track, x: Message)
    ensures forall j :: 0 <= j <= |o| ==> PrefixSum(o + [x], j) == PrefixSum(o, j)
  {
    forall j | 0 <= j <= |o|
      ensures PrefixSum(o + [x], j) == PrefixSum(o, j)
    {
      PrefixSumPrefix(o, [x], j);
    }
  }

  /** In the corrected cut every kept message is the input message at its position, re-timed. */
  lemma {:induction false} FixedShape(t: Track, cut: nat, k: nat)
    requires k <= |t|
    ensures |KeptOutFixed(t, cut, k)| == |KeptIndex(t, cut, k)|
    ensures forall j :: 0 <= j < |KeptIndex(t, cut, k)| ==>
              KeptOutFixed(t, cut, k)[j] == t[KeptIndex(t, cut, k)[j]].(delta := KeptOutFixed(t, cut, k)[j].delta)
  {
    if k > 0 {
      FixedShape(t, cut, k - 1);
    }
  }

  /** ... and lands on the absolute tick it had in the input. */
  lemma {:induction false} FixedKeepsTicks(t: Track, cut: nat, k: nat)
    requires k <= |t|
    ensures |KeptOutFixed(t, cut, k)| == |KeptIndex(t, cut, k)|
    ensures PrefixSum(KeptOutFixed(t, cut, k), |KeptOutFixed(t, cut, k)|) == LastKeptTick(t, cut, k)
    ensures forall j :: 0 <= j < |KeptIndex(t, cut, k)| ==>
              PrefixSum(KeptOutFixed(t, cut, k), j + 1) == PrefixSum(t, KeptIndex(t, cut, k)[j] + 1)
  {
    if k > 0 {
      FixedKeepsTicks(t, cut, k - 1);
      if !Kept(t, cut, k) {
        assert KeptOutFixed(t, cut, k) == KeptOutFixed(t, cut, k - 1);
        assert KeptIndex(t, cut, k) == KeptIndex(t, cut, k - 1);
        assert LastKeptTick(t, cut, k) == LastKeptTick(t, cut, k - 1);
      } else {
        var o := KeptOutFixed(t, cut, k - 1);
        var x := t[k - 1].(delta := PrefixSum(t, k) - LastKeptTick(t, cut, k - 1));
        assert KeptOutFixed(t, cut, k) == o + [x];
        assert KeptIndex(t, cut, k) == KeptIndex(t, cut, k - 1) + [k - 1];
        assert LastKeptTick(t, cut, k) == PrefixSum(t, k);
        TicksSnoc(t, o, KeptIndex(t, cut, k - 1), x, k - 1);
      }
    }
  }

  /** One more re-timed message keeps every earlier tick and lands on its own input tick. */
  lemma TicksSnoc(t: Track, o: Track, ix: seq<nat>, x: Message, i: nat)
    requires i < |t| && |o| == |ix|
    requires forall j :: 0 <= j < |ix| ==> ix[j] < |t|
    requires forall j :: 0 <= j < |ix| ==> PrefixSum(o, j + 1) == PrefixSum(t, ix[j] + 1)
    requires PrefixSum(o, |o|) + x.delta == PrefixSum(t, i + 1)
    ensures PrefixSum(o + [x], |o + [x]|) == PrefixSum(t, i + 1)
    ensures forall j :: 0 <= j < |ix + [i]| ==> PrefixSum(o + [x], j + 1) == PrefixSum(t, (ix + [i])[j] + 1)
  {
    PrefixSumSnoc(o, x);
    PrefixSumsKept(o, x);
    var nix := ix + [i];
    forall j | 0 <= j < |nix|
      ensures PrefixSum(o + [x], j + 1) == PrefixSum(t, nix[j] + 1)
    {
      if j < |ix| {
        assert PrefixSum(o + [x], j + 1) == PrefixSum(o, j + 1);
      }
    }
  }

  /** Offs appended to a track all land `delta` ticks after its end. */
  lemma {:induction false} ClosersTicks(o: Track, tr: Tracker, delta: nat, i: nat)
    requires i < |tr|
    ensures PrefixSum(o + Closers(tr, delta), |o| + i + 1) == PrefixSum(o, |o|) + delta
  {
    if i == 0 {
      PrefixSumPrefix(o, Closers(tr, delta), |o|);
    } else {
      ClosersTicks(o, tr, delta, i - 1);
    }
  }

  /** In the corrected cut the synthesized offs fall exactly on the cut. */
  lemma FixedClosesAtCut(t: Track, cut: nat, i: nat)
    requires FirstPast(t, cut, 0) < |t|
    requires i < |KeptActive(t, cut, FirstPast(t, cut, 0))|
    ensures PrefixSum(CutTrackFixed(t, cut), |KeptOutFixed(t, cut, FirstPast(t, cut, 0))| + i + 1) == cut
  {
    var f := FirstPast(t, cut, 0);
    assert f == 0 || NotPast(t, cut, f - 1);
    var last := LastKeptTick(t, cut, f);
    var o := KeptOutFixed(t, cut, f);
    var tr := KeptActive(t, cut, f);
    FixedEndTick(t, cut, f);
    assert CutTrackFixed(t, cut) == o + Closers(tr, cut - last) + [EndOfTrackMessage()];
    OffsLand(o, tr, cut - last, i, EndOfTrackMessage());
  }

  /** The corrected kept output ends on the tick of the last kept message. */
  lemma FixedEndTick(t: Track, cut: nat, k: nat)
    requires k <= |t|
    ensures PrefixSum(KeptOutFixed(t, cut, k), |KeptOutFixed(t, cut, k)|) == LastKeptTick(t, cut, k)
  {
    FixedKeepsTicks(t, cut, k);
  }

  /** Offs followed by one more message still land `delta` ticks after the end of the track before them. */
  lemma OffsLand(o: Track, tr: Tracker, delta: nat, i: nat, x: Message)
    requires i < |tr|
    ensures PrefixSum(o + Closers(tr, delta) + [x], |o| + i + 1) == PrefixSum(o, |o|) + delta
  {
    ClosersTicks(o, tr, delta, i);
    PrefixSumPrefix(o + Closers(tr, delta), [x], |o| + i + 1);
  }

  /** With no onset on the cut nothing is dropped, and the corrected cut agrees with the code. */
  lemma {:induction false} FixedAgreesOut(t: Track, cut: nat, k: nat)
    requires k <= |t| && NoOnAtCut(t, cut, k)
    requires forall j :: 0 <= j < k ==> NotPast(t, cut, j)
    ensures KeptOutFixed(t, cut, k) == KeptOut(t, cut, k)
    ensures LastKeptTick(t, cut, k) == PrefixSum(t, k)
  {
    if k > 0 {
      assert NotPast(t, cut, k - 1);
      assert Kept(t, cut, k);
      FixedAgreesOut(t, cut, k - 1);
    }
  }

  lemma FixedAgrees(t: Track, cut: nat)
    requires NoOnAtCut(t, cut, FirstPast(t, cut, 0))
    ensures CutTrackFixed(t, cut) == CutTrackSpec(t, cut)
  {
    FixedAgreesOut(t, cut, FirstPast(t, cut, 0));
  }

  /**
    Two notes on channel 0: `a` starts at tick 0, `b` starts `d` ticks later,
    and each stops `d` ticks after the message before it.
  */
  function OnsetAtCut(d: nat, a: int, b: int, v: int): Track {
    [Message(0, NoteOn, 0, a, v), Message(d, NoteOn, 0, b, v),
     Message(d, NoteOff, 0, a, 0), Message(d, NoteOff, 0, b, 0)]
  }

  /** Cut at `d`: the onset of `b` is on the cut and dropped; `a` is still sounding. */
  lemma OnsetAtCutState(d: nat, a: int, b: int, v: int)
    requires d > 0 && v > 0
    ensures PrefixSum(OnsetAtCut(d, a, b, v), 2) == d
    ensures FirstPast(OnsetAtCut(d, a, b, v), d, 0) == 2
    ensures KeptOut(OnsetAtCut(d, a, b, v), d, 2) == [Message(0, NoteOn, 0, a, v)]
    ensures KeptActive(OnsetAtCut(d, a, b, v), d, 2) == [Held(0, a, v)]
    ensures LastKeptTick(OnsetAtCut(d, a, b, v), d, 2) == 0
  {
    var t := OnsetAtCut(d, a, b, v);
    assert t[0].delta == 0 && t[1].delta == d && t[2].delta == d;
    assert PrefixSum(t, 1) == 0;
    assert PrefixSum(t, 2) == d;
    assert PrefixSum(t, 3) == 2 * d;
    assert NotPast(t, d, 0) && NotPast(t, d, 1);
    FirstPastIs(t, d, 0, 2);
    assert Kept(t, d, 1) && !Kept(t, d, 2);
    assert KeptOut(t, d, 1) == [t[0]] by {
      assert KeptOut(t, d, 0) == [];
    }
    assert KeptActive(t, d, 1) == [Held(0, a, v)] by {
      assert KeptActive(t, d, 0) == [];
    }
  }

  /**
    As written, cutting at `d` drops the onset at `d` together with its `d`
    ticks, so the off that should close `a` on the cut comes out at tick 0.
  */
  lemma OnsetAtCutLosesTime(d: nat, a: int, b: int, v: int)
    requires d > 0 && v > 0
    ensures CutTrackSpec(OnsetAtCut(d, a, b, v), d)
            == [Message(0, NoteOn, 0, a, v), NoteOffMessage(0, 0, a), EndOfTrackMessage()]
    ensures PrefixSum(CutTrackSpec(OnsetAtCut(d, a, b, v), d), 2) == 0
  {
    var t := OnsetAtCut(d, a, b, v);
    OnsetAtCutState(d, a, b, v);
    SpecPast(t, d, 2, [t[0]], [Held(0, a, v)], 0);
    assert Closers([Held(0, a, v)], 0) == [NoteOffMessage(0, 0, a)];
    var r := [Message(0, NoteOn, 0, a, v), NoteOffMessage(0, 0, a), EndOfTrackMessage()];
    assert PrefixSum(r, 1) == 0;
  }

  /** The corrected cut of the same track closes `a` on the cut. */
  lemma OnsetAtCutFixed(d: nat, a: int, b: int, v: int)
    requires d > 0 && v > 0
    ensures CutTrackFixed(OnsetAtCut(d, a, b, v), d)
            == [Message(0, NoteOn, 0, a, v), NoteOffMessage(d, 0, a), EndOfTrackMessage()]
  {
    var t := OnsetAtCut(d, a, b, v);
    OnsetAtCutState(d, a, b, v);
    assert Kept(t, d, 1);
    assert KeptOutFixed(t, d, 1) == [t[0]];
    assert KeptOutFixed(t, d, 2) == [t[0]];
  }
}
