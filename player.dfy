/** Player (src/audio_sys/player.rs): plays a sound from a play head that
    moves by the ratio of the sound's rate to the device's rate on every
    frame, interpolating between neighbouring samples, and stops or loops
    at the end of the play range. */
module Players {
  import opened Util
  import opened Sequences
  import opened Snds

  /** One channel at sample index idx and fraction f (player.rs:42-46):
      interpolated between the samples at idx and idx + 1, missing samples
      read as 0. */
  function VoiceAt(sq: BlockSequence, idx: nat, f: real): real
    requires sq.Sound()
  {
    Lerp(SampleOr0(sq, idx), SampleOr0(sq, idx + 1), f)
  }

  /** One channel at a play head: the head's whole part picks the samples,
      its fraction the point between them. */
  function ChannelVoice(sq: BlockSequence, head: real): real
    requires sq.Sound()
  {
    VoiceAt(sq, ToUsize(Floor(head)), Fract(head))
  }

  /** The value output slot i gets for a play head at head
      (player.rs:37-51): channel i's voice; slots past the last channel
      repeat it. */
  function Voice(snd: Snd, head: real, i: nat): (v: real)
    requires snd.Sound() && |snd.channels| >= 1
  {
    ChannelVoice(snd.channels[OutChannel(|snd.channels|, i)], head)
  }

  /** The channel output slot i takes among n channels. */
  function OutChannel(n: nat, i: nat): (c: nat)
    requires n >= 1
    ensures c < n
    ensures i < n ==> c == i
    ensures i >= n ==> c == n - 1
  {
    if i < n then i else n - 1
  }

  /** The first n output slots for a play head at head. */
  function Voices(snd: Snd, head: real, n: nat): (w: seq<real>)
    requires snd.Sound() && (n == 0 || |snd.channels| >= 1)
    ensures |w| == n
    ensures forall j {:trigger Voice(snd, head, j)} :: 0 <= j < n ==> w[j] == Voice(snd, head, j)
  {
    if n == 0 then [] else Voices(snd, head, n - 1) + [Voice(snd, head, n - 1)]
  }

  /** The interpolation of fill_outs at a given index and fraction. */
  method InterpolateAt(sq: BlockSequence, idx: nat, f: real) returns (v: real)
    requires sq.Sound()
    ensures v == VoiceAt(sq, idx, f)
  {
    var l := sq.GetSample(idx);
    var r := sq.GetSample(idx + 1);
    var left := if l.Some? then l.value else 0.0;
    var right := if r.Some? then r.value else 0.0;
    v := Lerp(left, right, f);
  }

  /** fill_outs on one channel (player.rs:38-46): the samples at and
      after the head's whole part, interpolated by its fraction. */
  method Interpolate(sq: BlockSequence, head: real) returns (v: real)
    requires sq.Sound()
    ensures v == ChannelVoice(sq, head)
  {
    var idx := ToUsize(Floor(head));
    var fract := Fract(head);
    v := InterpolateAt(sq, idx, fract);
  }

  /** At a whole, non-negative play head inside the channel the output is
      the channel's sample there. */
  lemma VoiceAtWholeHead(snd: Snd, k: nat, i: nat)
    requires snd.Sound() && i < |snd.channels| && k < |snd.channels[i].Samples()|
    ensures Voice(snd, k as real, i) == snd.channels[i].Samples()[k]
  {
    assert Voice(snd, k as real, i) == ChannelVoice(snd.channels[i], k as real);
    assert Floor(k as real) == k as real;
    assert ToUsize(Floor(k as real)) == k;
    assert Trunc(k as real) == k as real;
  }

  /** At a non-negative play head the output lies between the two samples
      it interpolates. */
  lemma VoiceBetween(snd: Snd, head: real, i: nat)
    requires snd.Sound() && i < |snd.channels| && head >= 0.0
    ensures var idx := ToUsize(Floor(head));
      var l, r := SampleOr0(snd.channels[i], idx), SampleOr0(snd.channels[i], idx + 1);
      Min(l, r) <= Voice(snd, head, i) <= Max(l, r)
  {
    VoiceOfChannel(snd, head, i);
    ChannelVoiceBetween(snd.channels[i], head);
  }

  lemma ChannelVoiceBetween(sq: BlockSequence, head: real)
    requires sq.Sound() && head >= 0.0
    ensures var idx := ToUsize(Floor(head));
      Min(SampleOr0(sq, idx), SampleOr0(sq, idx + 1)) <= ChannelVoice(sq, head)
        <= Max(SampleOr0(sq, idx), SampleOr0(sq, idx + 1))
  {
    VoiceAtBetween(sq, ToUsize(Floor(head)), Fract(head));
  }

  lemma VoiceAtBetween(sq: BlockSequence, idx: nat, f: real)
    requires sq.Sound() && 0.0 <= f < 1.0
    ensures Min(SampleOr0(sq, idx), SampleOr0(sq, idx + 1)) <= VoiceAt(sq, idx, f)
         <= Max(SampleOr0(sq, idx), SampleOr0(sq, idx + 1))
  {
    LerpBetween(SampleOr0(sq, idx), SampleOr0(sq, idx + 1), f);
  }

  /** Slots past the last channel copy the last channel's value. */
  lemma VoiceRepeatsLast(snd: Snd, head: real, i: nat)
    requires snd.Sound() && |snd.channels| >= 1 && i >= |snd.channels|
    ensures Voice(snd, head, i) == Voice(snd, head, |snd.channels| - 1)
  {
    assert OutChannel(|snd.channels|, i) == OutChannel(|snd.channels|, |snd.channels| - 1);
  }

  /** Slot i of the first channels takes channel i's voice. */
  lemma VoiceOfChannel(snd: Snd, head: real, i: nat)
    requires snd.Sound() && i < |snd.channels|
    ensures Voice(snd, head, i) == ChannelVoice(snd.channels[i], head)
  {
    assert OutChannel(|snd.channels|, i) == i;
  }

  /** The loop of fill_outs (player.rs:37-51) for a play head at head. */
  method FillFrame(snd: Snd, head: real, out: array<real>, off: nat, n: nat)
    requires snd.Sound() && off + n <= out.Length && (n == 0 || |snd.channels| >= 1)
    modifies out
    ensures forall k :: off <= k < off + n ==> out[k] == Voice(snd, head, k - off)
    ensures forall k :: 0 <= k < out.Length && !(off <= k < off + n) ==> out[k] == old(out[k])
  {
    var channels := |snd.channels|;
    ghost var want := Voices(snd, head, n);
    for i := 0 to n
      invariant forall k :: off <= k < off + i ==> out[k] == want[k - off]
      invariant forall k :: 0 <= k < out.Length && !(off <= k < off + i) ==> out[k] == old(out[k])
    {
      if i < channels {
        var v := Interpolate(snd.channels[i], head);
        assert v == want[i] by {
          VoiceOfChannel(snd, head, i);
        }
        out[off + i] := v;
      } else {
        assert out[off + channels - 1] == want[i] by {
          assert out[off + channels - 1] == want[channels - 1];
          VoiceRepeatsLast(snd, head, i);
        }
        out[off + i] := out[off + channels - 1];
      }
    }
  }

  class Player {
    const id: nat
    const snd: Snd
    const start: real
    const end: real
    const playLoop: bool
    const ratio: real
    var playHead: real

    predicate Valid()
    {
      snd.Sound()
    }

    /** new (player.rs:19-31): the ratio is the sound's rate over the
        device's rate. */
    constructor (id_: nat, snd_: Snd, sr: real, start_: real, end_: real, ph: real, lp: bool)
      requires snd_.Sound() && sr != 0.0
      ensures Valid() && id == id_ && snd == snd_ && start == start_ && end == end_
      ensures playLoop == lp && playHead == ph && ratio == snd_.sampleRate as real / sr
    {
      id := id_;
      snd := snd_;
      start := start_;
      end := end_;
      playLoop := lp;
      playHead := ph;
      ratio := snd_.sampleRate as real / sr;
    }

    /** Where the head goes on one tick and whether playing goes on
        (player.rs:56-68): forward by the ratio; at or past the end a
        looping player wraps back by the range's length, and another
        one stops with the head left where it got to. */
    function Advance(h: real): (r: (real, bool))
      ensures !playLoop ==> r.0 == h + ratio && (r.1 <==> r.0 < end)
      ensures playLoop && h + ratio >= end ==> r.0 == h + ratio - end + start && r.1
      ensures playLoop && h + ratio < end ==> r.0 == h + ratio && r.1
    {
      var ph := h + ratio;
      if ph >= end then
        if playLoop then (ph - end + start, true) else (ph, false)
      else (ph, true)
    }

    /** The head after k ticks from h. */
    function HeadAfter(h: real, k: nat): real
    {
      if k == 0 then h else Advance(HeadAfter(h, k - 1)).0
    }

    /** Whether playing goes on after n ticks from h: the last tick's
        answer, true when there are none. */
    function KeepsOn(h: real, n: nat): bool
    {
      n == 0 || Advance(HeadAfter(h, n - 1)).1
    }

    /** fill_outs (player.rs:37-53): out[off..off + n] gets the values for
        the current head; a player without channels cannot fill a frame. */
    method FillOuts(out: array<real>, off: nat, n: nat)
      requires Valid() && off + n <= out.Length && (n == 0 || |snd.channels| >= 1)
      modifies out
      ensures forall k :: off <= k < off + n ==> out[k] == Voice(snd, playHead, k - off)
      ensures forall k :: 0 <= k < out.Length && !(off <= k < off + n) ==> out[k] == old(out[k])
    {
      FillFrame(snd, playHead, out, off, n);
    }

    /** tick (player.rs:55-69): fill the frame from the head as it was,
        then advance it. */
    method Tick(out: array<real>, off: nat, n: nat) returns (keepOn: bool)
      requires Valid() && off + n <= out.Length && (n == 0 || |snd.channels| >= 1)
      modifies this, out
      ensures forall k :: off <= k < off + n ==> out[k] == Voice(snd, old(playHead), k - off)
      ensures forall k :: 0 <= k < out.Length && !(off <= k < off + n) ==> out[k] == old(out[k])
      ensures (playHead, keepOn) == Advance(old(playHead))
    {
      FillOuts(out, off, n);
      var r := Advance(playHead);
      playHead, keepOn := r.0, r.1;
    }

    /** play_pos (player.rs:71-73): the head's whole part, 0 below zero. */
    function PlayPos(): (pos: nat)
      reads this
      ensures playHead >= 0.0 ==> pos as real <= playHead < pos as real + 1.0
      ensures playHead < 1.0 ==> pos == 0
    {
      ToUsize(Floor(playHead))
    }

    /** A looping player whose step fits in its range keeps its head in
        the range. */
    lemma LoopStaysInRange(h: real)
      requires playLoop && 0.0 <= ratio <= end - start && start <= h < end
      ensures start <= Advance(h).0 < end && Advance(h).1
    {
    }

    /** A player that does not loop and moves forward stops for good: once
        a tick says stop, every later tick does too. */
    lemma {:induction false} StopsForGood(h: real, k: nat)
      requires !playLoop && ratio >= 0.0 && !Advance(h).1
      ensures !Advance(HeadAfter(Advance(h).0, k)).1
      ensures HeadAfter(Advance(h).0, k) >= end
    {
      if k > 0 {
        StopsForGood(h, k - 1);
      }
    }
  }
}
