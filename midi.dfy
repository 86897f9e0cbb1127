/**
  The shape of a MIDI file as the scripts see it through mido: tracks of
  messages, each message carrying the delta time (in ticks) since the
  previous message of its track.
*/
module Midi {

  /** The meta messages the scripts look at; `OtherMeta` stands for every other meta message. */
  datatype MetaKind = SetTempo(tempo: int) | EndOfTrack | OtherMeta

  /** `note_on`, `note_off`, or a meta message. */
  datatype Kind = NoteOn | NoteOff | Meta(meta: MetaKind)

  /** A mido message: `time` is `delta`; channel, note and velocity matter only for the note kinds. */
  datatype Message = Message(delta: nat, kind: Kind, channel: int, note: int, velocity: int)

  type Track = seq<Message>

  /** `msg.type == 'note_on' and msg.velocity > 0`. */
  predicate StartsNote(m: Message) {
    m.kind == NoteOn && m.velocity > 0
  }

  /** `msg.type == 'note_off' or (msg.type == 'note_on' and msg.velocity == 0)`. */
  predicate EndsNote(m: Message) {
    m.kind == NoteOff || (m.kind == NoteOn && m.velocity == 0)
  }

  /** The sum of the deltas of the first `k` messages: the absolute tick of message `k - 1`. */
  function PrefixSum(t: Track, k: nat): nat
    requires k <= |t|
  {
    if k == 0 then 0 else PrefixSum(t, k - 1) + t[k - 1].delta
  }

  lemma {:induction false} PrefixSumMonotone(t: Track, i: nat, j: nat)
    requires i <= j <= |t|
    ensures PrefixSum(t, i) <= PrefixSum(t, j)
    decreases j - i
  {
    if i < j {
      PrefixSumMonotone(t, i, j - 1);
    }
  }

  /** Appending messages does not move the absolute ticks of the earlier ones. */
  lemma {:induction false} PrefixSumPrefix(t: Track, u: Track, k: nat)
    requires k <= |t|
    ensures PrefixSum(t + u, k) == PrefixSum(t, k)
  {
    if k > 0 {
      PrefixSumPrefix(t, u, k - 1);
      assert (t + u)[k - 1] == t[k - 1];
    }
  }

  /** `mido.Message('note_off', note=note, velocity=0, channel=channel, time=delta)`. */
  function NoteOffMessage(delta: nat, channel: int, note: int): Message {
    Message(delta, NoteOff, channel, note, 0)
  }

  /** `mido.MetaMessage('end_of_track', time=0)`. */
  function EndOfTrackMessage(): Message {
    Message(0, Meta(EndOfTrack), 0, 0, 0)
  }
}
