/**
  The sixteenth-note sampler of the harmonic analysis (`_get_sounding_notes_per_16th`):
  the note messages of every track are turned into events at absolute ticks,
  sorted by tick with note-offs before note-ons at equal ticks, and for every
  sixteenth-note grid point the events up to that tick are replayed to give
  the pitches sounding there. Also the polyphony gate that rejects a file with
  a grid point holding fewer than three pitches.
*/
module Sampler {
  import opened Wrappers
  import opened Sets
  import opened Midi

  datatype EventType = On | Off

  /** One entry of the merged list: `('on' | 'off', absolute tick, note)`; the channel is not kept. */
  datatype Event = Event(typ: EventType, tick: nat, note: int)

  /** The event a message contributes at absolute tick `tick`: a velocity-0 `note_on` is an Off. */
  function EventOf(m: Message, tick: nat): seq<Event> {
    if StartsNote(m) then [Event(On, tick, m.note)]
    else if EndsNote(m) then [Event(Off, tick, m.note)]
    else []
  }

  /** The events of the first `n` messages of a track, each at the running sum of the deltas. */
  function TrackEvents(t: Track, n: nat): seq<Event>
    requires n <= |t|
  {
    if n == 0 then [] else TrackEvents(t, n - 1) + EventOf(t[n - 1], PrefixSum(t, n))
  }

  /** The events of the first `n` tracks, track after track, before sorting. */
  function Collect(tracks: seq<Track>, n: nat): seq<Event>
    requires n <= |tracks|
  {
    if n == 0 then [] else Collect(tracks, n - 1) + TrackEvents(tracks[n - 1], |tracks[n - 1]|)
  }

  /** Each collected event comes from one note message, at that message's absolute tick. */
  lemma {:induction false} TrackEventsFromMessages(t: Track, n: nat, e: Event)
    requires n <= |t|
    requires e in TrackEvents(t, n)
    ensures exists k :: 0 <= k < n && e.tick == PrefixSum(t, k + 1) && e.note == t[k].note
                        && (e.typ == On ==> StartsNote(t[k])) && (e.typ == Off ==> EndsNote(t[k]))
  {
    if e in TrackEvents(t, n - 1) {
      TrackEventsFromMessages(t, n - 1, e);
      var k :| 0 <= k < n - 1 && e.tick == PrefixSum(t, k + 1) && e.note == t[k].note
                && (e.typ == On ==> StartsNote(t[k])) && (e.typ == Off ==> EndsNote(t[k]));
    } else {
      assert e in EventOf(t[n - 1], PrefixSum(t, n));
    }
  }

  /** Every note message of a track contributes its event, at its absolute tick. */
  lemma {:induction false} MessagesGiveEvents(t: Track, n: nat, k: nat)
    requires k < n <= |t|
    ensures StartsNote(t[k]) ==> Event(On, PrefixSum(t, k + 1), t[k].note) in TrackEvents(t, n)
    ensures EndsNote(t[k]) ==> Event(Off, PrefixSum(t, k + 1), t[k].note) in TrackEvents(t, n)
  {
    if k < n - 1 {
      MessagesGiveEvents(t, n - 1, k);
    }
  }

  /** The sort key `(tick, 0 if off else 1)`. */
  function Rank(e: Event): nat {
    if e.typ == Off then 0 else 1
  }

  predicate KeyLe(a: Event, b: Event) {
    a.tick < b.tick || (a.tick == b.tick && Rank(a) <= Rank(b))
  }

  /** Ticks never decrease, and at an equal tick every Off comes before every On. */
  predicate SortedByKey(s: seq<Event>) {
    forall i, j :: 0 <= i < j < |s| ==> KeyLe(s[i], s[j])
  }

  /** Inserts `e` after every element whose key is at most its own (a stable insertion). */
  function Insert(s: seq<Event>, e: Event): (r: seq<Event>)
    ensures multiset(r) == multiset(s) + multiset{e}
    ensures forall x :: x in r ==> x in s || x == e
  {
    if s == [] then [e]
    else if KeyLe(s[0], e) then
      assert s == [s[0]] + s[1..];
      [s[0]] + Insert(s[1..], e)
    else
      [e] + s
  }

  /** Inserting into a sorted list keeps it sorted. */
  lemma {:induction false} InsertSorted(s: seq<Event>, e: Event)
    requires SortedByKey(s)
    ensures SortedByKey(Insert(s, e))
    decreases |s|
  {
    if s != [] && KeyLe(s[0], e) {
      var rest := Insert(s[1..], e);
      InsertSorted(s[1..], e);
      assert forall x :: x in rest ==> KeyLe(s[0], x);
      assert Insert(s, e) == [s[0]] + rest;
    }
  }

  /**
    Python's stable `events.sort(key=lambda x: (x[1], 0 if x[0] == 'off' else 1))`:
    the result is sorted by that key and is a permutation of the input.
  */
  function SortEvents(s: seq<Event>): (r: seq<Event>)
    ensures SortedByKey(r)
    ensures multiset(r) == multiset(s)
  {
    if s == [] then []
    else
      assert s == s[..|s| - 1] + [s[|s| - 1]];
      InsertSorted(SortEvents(s[..|s| - 1]), s[|s| - 1]);
      Insert(SortEvents(s[..|s| - 1]), s[|s| - 1])
  }

  /** The merged, sorted event list of a file. */
  function MergedEvents(tracks: seq<Track>): seq<Event> {
    SortEvents(Collect(tracks, |tracks|))
  }

  /** `max(t for _, t, _ in events) if events else 0`. */
  function MaxTick(evs: seq<Event>): (m: nat)
    ensures forall k :: 0 <= k < |evs| ==> evs[k].tick <= m
    ensures evs != [] ==> exists k :: 0 <= k < |evs| && evs[k].tick == m
    ensures evs == [] ==> m == 0
  {
    if evs == [] then 0
    else
      var m := MaxTick(evs[1..]);
      if evs[0].tick >= m then
        evs[0].tick
      else
        assert exists k :: 0 <= k < |evs[1..]| && evs[1..][k].tick == m;
        var k :| 0 <= k < |evs[1..]| && evs[1..][k].tick == m;
        assert evs[k + 1].tick == m;
        m
  }

  function Dist(a: int, b: int): nat {
    if a >= b then a - b else b - a
  }

  /** Python's `round(num / den)`: the nearest integer, ties going to the even one. */
  function RoundHalfEven(num: nat, den: nat): (r: nat)
    requires den > 0
    ensures 2 * Dist(r * den, num) <= den
    ensures 2 * Dist(r * den, num) == den ==> r % 2 == 0
  {
    var q := num / den;
    var m := num % den;
    NearMultiples(num, den, q, m);
    var r := if 2 * m < den then q
             else if 2 * m > den then q + 1
             else if q % 2 == 0 then q
             else q + 1;
    Nearest(num, den, q, m, r);
    r
  }

  /** Of the two multiples around `num`, the one chosen is the nearer, and the even one on a tie. */
  lemma Nearest(num: nat, den: nat, q: int, m: int, r: int)
    requires den > 0 && 0 <= m < den
    requires Dist(q * den, num) == m && Dist((q + 1) * den, num) == den - m
    requires || (r == q && 2 * m <= den && (2 * m == den ==> q % 2 == 0))
             || (r == q + 1 && 2 * m >= den && (2 * m == den ==> (q + 1) % 2 == 0))
    ensures 2 * Dist(r * den, num) <= den
    ensures 2 * Dist(r * den, num) == den ==> r % 2 == 0
  {
    if r == q {
      assert r * den == q * den;
    } else {
      assert r * den == (q + 1) * den;
    }
  }

  /** The two multiples of `den` around `num` lie `num % den` below it and `den - num % den` above it. */
  lemma NearMultiples(num: nat, den: nat, q: int, m: int)
    requires den > 0 && q == num / den && m == num % den
    ensures 0 <= m < den
    ensures Dist(q * den, num) == m && Dist((q + 1) * den, num) == den - m
  {
    assert num == q * den + m;
    assert (q + 1) * den == q * den + den;
  }

  lemma RoundZero(den: nat)
    requires den > 0
    ensures RoundHalfEven(0, den) == 0
  {
    assert 0 / den == 0 && 0 % den == 0;
  }

  /** `int(i * (ticks_per_beat / 4.0))`: the tick of grid point `i`. */
  function Target(i: nat, ticksPerBeat: nat): nat {
    (i * ticksPerBeat) / 4
  }

  /** `int(round(last_tick / (ticks_per_beat / 4.0)))`: the number of grid points. */
  function SampleCount(evs: seq<Event>, ticksPerBeat: nat): nat
    requires ticksPerBeat > 0
  {
    RoundHalfEven(4 * MaxTick(evs), ticksPerBeat)
  }

  /** `add` for an On, `discard` for an Off. */
  function Apply(active: set<int>, e: Event): set<int> {
    if e.typ == On then active + {e.note} else active - {e.note}
  }

  /** The set after replaying the first `n` events from an empty set. */
  function Replay(evs: seq<Event>, n: nat): set<int>
    requires n <= |evs|
  {
    if n == 0 then {} else Apply(Replay(evs, n - 1), evs[n - 1])
  }

  function FirstAfterFrom(evs: seq<Event>, target: nat, i: nat): (k: nat)
    requires i <= |evs|
    requires forall j :: 0 <= j < i ==> evs[j].tick <= target
    ensures i <= k <= |evs|
    ensures forall j :: 0 <= j < k ==> evs[j].tick <= target
    ensures k < |evs| ==> evs[k].tick > target
    decreases |evs| - i
  {
    if i == |evs| || evs[i].tick > target then i else FirstAfterFrom(evs, target, i + 1)
  }

  /** Where the replay loop breaks: the first event later than `target`, or the end. */
  function FirstAfter(evs: seq<Event>, target: nat): (k: nat)
    ensures k <= |evs|
    ensures forall j :: 0 <= j < k ==> evs[j].tick <= target
    ensures k < |evs| ==> evs[k].tick > target
  {
    FirstAfterFrom(evs, target, 0)
  }

  lemma FirstAfterUnique(evs: seq<Event>, target: nat, k: nat)
    requires k <= |evs|
    requires forall j :: 0 <= j < k ==> evs[j].tick <= target
    requires k < |evs| ==> evs[k].tick > target
    ensures k == FirstAfter(evs, target)
  {
  }

  /** The pitches sounding at `target`: the replay of every event up to the first later one. */
  function Sounding(evs: seq<Event>, target: nat): set<int> {
    Replay(evs, FirstAfter(evs, target))
  }

  /**
    The sampler: `total` grid points, as many as `round(last_tick / ticks_per_16th)`,
    and for grid point `i` the ascending list of the pitches sounding at
    `Target(i)` in the merged event list. No note event, no grid point.
  */
  method SoundingNotesPer16th(tracks: seq<Track>, ticksPerBeat: nat) returns (result: seq<seq<int>>, total: nat)
    requires ticksPerBeat > 0
    ensures total == SampleCount(MergedEvents(tracks), ticksPerBeat)
    ensures |result| == total
    ensures forall i :: 0 <= i < total ==>
              result[i] == SortedElems(Sounding(MergedEvents(tracks), Target(i, ticksPerBeat)))
    ensures forall i :: 0 <= i < total ==> StrictlyIncreasing(result[i])
    ensures MergedEvents(tracks) == [] ==> result == []
  {
    var events := CollectEvents(tracks);
    events := SortEvents(events);
    assert events == MergedEvents(tracks);
    total := RoundHalfEven(4 * MaxTick(events), ticksPerBeat);
    if events == [] {
      RoundZero(ticksPerBeat);
    }
    result := SampleGrid(events, total, ticksPerBeat);
  }

  /** The second loop of the sampler: one ascending pitch list per grid point. */
  method SampleGrid(events: seq<Event>, total: nat, ticksPerBeat: nat) returns (result: seq<seq<int>>)
    ensures |result| == total
    ensures forall i :: 0 <= i < total ==> result[i] == SortedElems(Sounding(events, Target(i, ticksPerBeat)))
  {
    result := [];
    var i := 0;
    while i < total
      invariant 0 <= i <= total
      invariant |result| == i
      invariant forall k :: 0 <= k < i ==> result[k] == SortedElems(Sounding(events, Target(k, ticksPerBeat)))
    {
      var active := SoundingAt(events, (i * ticksPerBeat) / 4);
      result := result + [SortedElems(active)];
      i := i + 1;
    }
  }

  /** The first loop of the sampler: every track's note events, track after track. */
  method CollectEvents(tracks: seq<Track>) returns (events: seq<Event>)
    ensures events == Collect(tracks, |tracks|)
  {
    events := [];
    var ti := 0;
    while ti < |tracks|
      invariant 0 <= ti <= |tracks|
      invariant events == Collect(tracks, ti)
    {
      var track := tracks[ti];
      var absTime: nat := 0;
      var mi := 0;
      while mi < |track|
        invariant 0 <= mi <= |track|
        invariant absTime == PrefixSum(track, mi)
        invariant events == Collect(tracks, ti) + TrackEvents(track, mi)
      {
        var msg := track[mi];
        absTime := absTime + msg.delta;
        ghost var before := events;
        if StartsNote(msg) {
          events := events + [Event(On, absTime, msg.note)];
        } else if EndsNote(msg) {
          events := events + [Event(Off, absTime, msg.note)];
        }
        assert events == before + EventOf(msg, absTime);
        TrackEventsSnoc(Collect(tracks, ti), track, mi, before, events, absTime);
        mi := mi + 1;
      }
      ti := ti + 1;
    }
  }

  /** One message more: its event, at the running tick, joins the events. */
  lemma TrackEventsSnoc(done: seq<Event>, t: Track, mi: nat, before: seq<Event>, after: seq<Event>, tick: nat)
    requires mi < |t| && before == done + TrackEvents(t, mi)
    requires tick == PrefixSum(t, mi) + t[mi].delta && after == before + EventOf(t[mi], tick)
    ensures after == done + TrackEvents(t, mi + 1)
  {
    assert PrefixSum(t, mi + 1) == tick;
  }

  /** The replay loop for one grid point: apply events until the first one later than `target`. */
  method SoundingAt(events: seq<Event>, target: nat) returns (active: set<int>)
    ensures active == Sounding(events, target)
  {
    active := {};
    var j := 0;
    while j < |events| && events[j].tick <= target
      invariant 0 <= j <= |events|
      invariant forall k :: 0 <= k < j ==> events[k].tick <= target
      invariant active == Replay(events, j)
    {
      if events[j].typ == On {
        active := active + {events[j].note};
      } else {
        active := active - {events[j].note};
      }
      j := j + 1;
    }
    FirstAfterUnique(events, target, j);
  }

  /**
    A pitch is in the replayed set exactly when its last event among the
    first `n` is an On: a repeated On or a stray Off changes nothing.
  */
  lemma {:induction false} ReplayLastEvent(evs: seq<Event>, n: nat, p: int)
    requires n <= |evs|
    ensures p in Replay(evs, n) <==>
              exists k :: 0 <= k < n && evs[k].note == p && evs[k].typ == On &&
                          forall j :: k < j < n ==> evs[j].note != p
  {
    if n > 0 {
      ReplayLastEvent(evs, n - 1, p);
      var e := evs[n - 1];
      if e.note == p && e.typ == On {
        assert p in Replay(evs, n);
      } else if e.note == p {
        assert p !in Replay(evs, n);
        forall k | 0 <= k < n && evs[k].note == p && evs[k].typ == On
          ensures exists j :: k < j < n && evs[j].note == p
        {
          assert k < n - 1;
        }
      } else {
        assert p in Replay(evs, n) <==> p in Replay(evs, n - 1);
        if p in Replay(evs, n - 1) {
          var k :| 0 <= k < n - 1 && evs[k].note == p && evs[k].typ == On &&
                   forall j :: k < j < n - 1 ==> evs[j].note != p;
          assert forall j :: k < j < n ==> evs[j].note != p;
        }
        if exists k :: 0 <= k < n && evs[k].note == p && evs[k].typ == On &&
                       forall j :: k < j < n ==> evs[j].note != p {
          var k :| 0 <= k < n && evs[k].note == p && evs[k].typ == On &&
                   forall j :: k < j < n ==> evs[j].note != p;
          assert k < n - 1;
        }
      }
    }
  }

  /** In a sorted list, the events replayed for `target` are exactly those with tick at most `target`. */
  lemma SortedPrefix(evs: seq<Event>, target: nat, k: nat)
    requires SortedByKey(evs)
    requires 0 <= k < |evs|
    ensures k < FirstAfter(evs, target) <==> evs[k].tick <= target
  {
    var f := FirstAfter(evs, target);
    assert k >= f ==> f < |evs| && KeyLe(evs[f], evs[k]);
  }

  lemma SortedOrder(evs: seq<Event>, i: nat, j: nat)
    requires SortedByKey(evs)
    requires i < |evs| && j < |evs| && evs[i].tick < evs[j].tick
    ensures i < j
  {
  }

  /**
    Half-open sounding intervals: a pitch whose only events are an On at
    tick `a` and an Off at a later tick `b` sounds at `target` exactly when
    `a <= target < b`.
  */
  lemma HalfOpenSounding(evs: seq<Event>, iOn: nat, iOff: nat, target: nat)
    requires SortedByKey(evs)
    requires iOn < |evs| && iOff < |evs|
    requires evs[iOn].typ == On && evs[iOff].typ == Off
    requires evs[iOn].note == evs[iOff].note && evs[iOn].tick < evs[iOff].tick
    requires forall k :: 0 <= k < |evs| && k != iOn && k != iOff ==> evs[k].note != evs[iOn].note
    ensures evs[iOn].note in Sounding(evs, target) <==> evs[iOn].tick <= target < evs[iOff].tick
  {
    var p := evs[iOn].note;
    var n := FirstAfter(evs, target);
    ReplayLastEvent(evs, n, p);
    SortedPrefix(evs, target, iOn);
    SortedPrefix(evs, target, iOff);
    SortedOrder(evs, iOn, iOff);
    if evs[iOn].tick <= target < evs[iOff].tick {
      assert iOn < n <= iOff;
      assert forall j :: iOn < j < n ==> evs[j].note != p;
    } else if target < evs[iOn].tick {
      assert n <= iOn;
    } else {
      assert iOff < n;
    }
  }

  /**
    The polyphony gate of the analysis: the index of the first grid point
    holding fewer than three pitches, or None when every one holds three or more.
  */
  method FirstThinSample(samples: seq<seq<int>>) returns (thin: Option<nat>)
    ensures thin.None? <==> forall i :: 0 <= i < |samples| ==> |samples[i]| >= 3
    ensures thin.Some? ==> thin.value < |samples| && |samples[thin.value]| < 3
    ensures thin.Some? ==> forall i :: 0 <= i < thin.value ==> |samples[i]| >= 3
  {
    var i := 0;
    while i < |samples|
      invariant 0 <= i <= |samples|
      invariant forall k :: 0 <= k < i ==> |samples[k]| >= 3
    {
      if |samples[i]| < 3 {
        return Some(i);
      }
      i := i + 1;
    }
    return None;
  }
}
