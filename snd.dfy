/** Snd (src/snd/types.rs): a sample rate and one BlockSequence per channel,
    and InterLeaved, the iterator that reads the channels frame by frame. */
module Snds {
  import opened Util
  import opened Sequences

  /** Every channel's offsets are prefix sums. */
  predicate SoundChannels(chs: seq<BlockSequence>)
  {
    forall k :: 0 <= k < |chs| ==> chs[k].Sound()
  }

  ghost predicate ValidChannels(chs: seq<BlockSequence>)
  {
    forall k :: 0 <= k < |chs| ==> chs[k].Valid()
  }

  /** `fold(0, |mx, c| mx.max(c.len()))`: the longest channel's length. */
  function MaxLen(chs: seq<BlockSequence>): (n: nat)
    requires SoundChannels(chs)
    ensures forall k :: 0 <= k < |chs| ==> chs[k].Len() <= n
    ensures chs == [] ==> n == 0
  {
    if chs == [] then 0
    else
      var init := chs[..|chs| - 1];
      assert forall k :: 0 <= k < |init| ==> init[k] == chs[k];
      MaxNat(MaxLen(init), chs[|chs| - 1].Len())
  }

  /** The fold's result is the length of one of the channels. */
  lemma {:induction false} MaxLenAttained(chs: seq<BlockSequence>)
    requires SoundChannels(chs) && chs != []
    ensures exists k :: 0 <= k < |chs| && chs[k].Len() == MaxLen(chs)
  {
    var last := |chs| - 1;
    var init := chs[..last];
    assert MaxLen(chs) == MaxNat(MaxLen(init), chs[last].Len());
    if init != [] && MaxLen(init) >= chs[last].Len() {
      MaxLenAttained(init);
      var k :| 0 <= k < |init| && init[k].Len() == MaxLen(init);
      assert init[k] == chs[k];
      assert chs[k].Len() == MaxLen(chs);
    } else {
      assert chs[last].Len() == MaxLen(chs);
    }
  }

  /** Sample s of a channel, or 0.0 past its end: `get_sample(..).unwrap_or(0.0)`. */
  function SampleOr0(sq: BlockSequence, s: nat): (x: real)
    requires sq.Sound()
    ensures s < |sq.Samples()| ==> x == sq.Samples()[s]
    ensures s >= |sq.Samples()| ==> x == 0.0
  {
    if s < |sq.Samples()| then sq.Samples()[s] else 0.0
  }

  /** One frame: sample s of every channel, in channel order. */
  function Frame(chs: seq<BlockSequence>, s: nat): (f: seq<real>)
    requires SoundChannels(chs)
    ensures |f| == |chs|
  {
    seq(|chs|, c requires 0 <= c < |chs| => SampleOr0(chs[c], s))
  }

  /** The first n frames, one after the other. */
  function Frames(chs: seq<BlockSequence>, n: nat): (fs: seq<real>)
    requires SoundChannels(chs)
    ensures |fs| == n * |chs|
  {
    if n == 0 then []
    else
      assert (n - 1) * |chs| + |chs| == n * |chs|;
      Frames(chs, n - 1) + Frame(chs, n - 1)
  }

  datatype Snd = Snd(sampleRate: nat, channels: seq<BlockSequence>)
  {
    predicate Sound()
    {
      SoundChannels(channels)
    }

    ghost predicate Valid()
    {
      ValidChannels(channels)
    }

    /** len (types.rs:25-27): the longest channel's length, 0 without channels. */
    function Len(): (n: nat)
      requires Sound()
      ensures forall k :: 0 <= k < |channels| ==> channels[k].Len() <= n
      ensures channels == [] ==> n == 0
      ensures channels != [] ==> exists k :: 0 <= k < |channels| && channels[k].Len() == n
    {
      if channels != [] then MaxLenAttained(channels); MaxLen(channels)
      else MaxLen(channels)
    }

    /** channels (types.rs:33-35) */
    function Count(): (n: nat)
      ensures n == |channels|
    {
      |channels|
    }

    /** channel (types.rs:37-39): `Vec::get`, None past the last channel. */
    function Channel(n: nat): (r: Option<BlockSequence>)
      ensures r.None? <==> n >= Count()
      ensures r.Some? ==> r.value == channels[n]
    {
      if n < |channels| then Some(channels[n]) else None
    }

    /** seconds (types.rs:45-47): sample time over the rate. */
    function Seconds(sampleTime: real): (t: real)
      requires sampleRate > 0
      ensures t * sampleRate as real == sampleTime
    {
      sampleTime / sampleRate as real
    }
  }

  /** new and from_iter (types.rs:10-22) keep the rate and the channels in
      the order given. */
  lemma NewKeepsChannels(sr: nat, chs: seq<BlockSequence>, n: nat)
    ensures Snd(sr, chs).sampleRate == sr && Snd(sr, chs).Count() == |chs|
    ensures n < |chs| ==> Snd(sr, chs).Channel(n) == Some(chs[n])
    ensures n >= |chs| ==> Snd(sr, chs).Channel(n).None?
  {
  }

  /** k divided by the channel count, with its remainder, inside frame s. */
  lemma FramePos(s: nat, c: nat, count: nat)
    requires c < count
    ensures (s * count + c) / count == s && (s * count + c) % count == c
  {
    var k := s * count + c;
    var q, r := k / count, k % count;
    assert q * count + r == s * count + c;
    var d := q - s;
    assert d * count == q * count - s * count;
    if d > 0 {
      MulLe(1, d, count);
    } else if d < 0 {
      MulLe(1, -d, count);
    }
  }

  lemma MulLe(a: int, b: int, c: nat)
    requires a <= b
    ensures a * c <= b * c
  {
    assert b * c - a * c == (b - a) * c;
  }

  /** Value k of the first n frames is channel k mod C at sample k div C,
      or 0.0 where that channel has ended. */
  lemma {:induction false} FramesIndex(chs: seq<BlockSequence>, n: nat, k: nat)
    requires SoundChannels(chs) && k < n * |chs|
    ensures |chs| > 0 && k / |chs| < n
    ensures Frames(chs, n)[k] == SampleOr0(chs[k % |chs|], k / |chs|)
  {
    var count := |chs|;
    FrameSplit(k, n, count);
    var m := n - 1;
    if k < m * count {
      FramesIndex(chs, m, k);
      FramesPrefix(chs, n, k);
    } else {
      var c := k - m * count;
      FrameAt(chs, m, c);
      FramePos(m, c, count);
    }
  }

  /** An index below n C lies in one of the first n - 1 frames or in the
      last one. */
  lemma FrameSplit(k: nat, n: nat, count: nat)
    requires k < n * count
    ensures n > 0 && count > 0
    ensures k >= (n - 1) * count ==> k - (n - 1) * count < count
  {
    if n > 0 && count > 0 {
      assert n * count == (n - 1) * count + count;
    }
  }

  /** The first n - 1 frames open the first n. */
  lemma FramesPrefix(chs: seq<BlockSequence>, n: nat, k: nat)
    requires SoundChannels(chs) && 0 < n && k < (n - 1) * |chs|
    ensures Frames(chs, n)[k] == Frames(chs, n - 1)[k]
  {
  }

  /** Value m C + c of the first m + 1 frames is channel c at sample m. */
  lemma FrameAt(chs: seq<BlockSequence>, m: nat, c: nat)
    requires SoundChannels(chs) && c < |chs|
    ensures m * |chs| + c < (m + 1) * |chs|
    ensures Frames(chs, m + 1)[m * |chs| + c] == SampleOr0(chs[c], m)
  {
    MulSucc(m, |chs|);
    var pre, fr := Frames(chs, m), Frame(chs, m);
    assert Frames(chs, m + 1) == pre + fr;
  }

  /** One more frame is one more channel count. */
  lemma MulSucc(m: nat, count: nat)
    ensures (m + 1) * count == m * count + count
  {
  }

  /** Reading channel c of frame f extends the frames read so far by one
      value; after the last channel the next frame starts. */
  lemma FramesStep(chs: seq<BlockSequence>, f: nat, c: nat)
    requires SoundChannels(chs) && c < |chs|
    ensures c + 1 < |chs| ==>
      Frames(chs, f) + Frame(chs, f)[..c] + [Frame(chs, f)[c]] == Frames(chs, f) + Frame(chs, f)[..c + 1]
    ensures c + 1 == |chs| ==>
      Frames(chs, f) + Frame(chs, f)[..c] + [Frame(chs, f)[c]] == Frames(chs, f + 1) + Frame(chs, f + 1)[..0]
  {
    var fr := Frame(chs, f);
    assert fr[..c] + [fr[c]] == fr[..c + 1];
    if c + 1 == |chs| {
      assert fr[..c + 1] == fr;
      assert Frame(chs, f + 1)[..0] == [];
    }
  }

  /** InterLeaved (types.rs:60-97): reads channel `chan` at `sample`, then
      moves to the next channel, and to the next sample after the last one. */
  class InterLeaved {
    const snd: seq<BlockSequence>
    var chan: nat
    var sample: nat
    const end: nat

    ghost predicate Valid()
      reads this
    {
      SoundChannels(snd) && end == MaxLen(snd) && sample <= end &&
      (sample < end ==> chan < |snd|) &&
      (sample == end ==> chan == 0)
    }

    /** new (types.rs:67-76): the first channel of sample 0, up to len. */
    constructor (s: Snd)
      requires s.Sound()
      ensures Valid() && snd == s.channels && end == s.Len()
      ensures chan == 0 && sample == 0
    {
      snd := s.channels;
      chan := 0;
      sample := 0;
      end := s.Len();
    }

    /** next (types.rs:81-96) */
    method Next() returns (x: Option<real>)
      requires Valid()
      modifies this
      ensures Valid()
      ensures old(sample) == end ==> x.None? && chan == old(chan) && sample == old(sample)
      ensures old(sample) < end ==> x == Some(SampleOr0(snd[old(chan)], old(sample)))
      ensures old(sample) < end && old(chan) + 1 < |snd| ==> chan == old(chan) + 1 && sample == old(sample)
      ensures old(sample) < end && old(chan) + 1 == |snd| ==> chan == 0 && sample == old(sample) + 1
    {
      if sample == end {
        return None;
      }
      var v := snd[chan].GetSample(sample);
      var out := if v.Some? then v.value else 0.0;
      chan := chan + 1;
      if chan == |snd| {
        chan := 0;
        sample := sample + 1;
      }
      x := Some(out);
    }
  }

  /** interleaved_audio (types.rs:49-51), drained: len frames of every
      channel, short channels padded with 0.0. */
  method InterleavedAudio(s: Snd) returns (out: seq<real>)
    requires s.Sound()
    ensures out == Frames(s.channels, s.Len())
    ensures |out| == s.Len() * s.Count()
  {
    var it := new InterLeaved(s);
    out := [];
    while true
      invariant it.Valid() && it.snd == s.channels && it.end == s.Len()
      invariant out == Frames(it.snd, it.sample) + Frame(it.snd, it.sample)[..it.chan]
      decreases it.end - it.sample, |it.snd| - it.chan
    {
      ghost var f, c := it.sample, it.chan;
      var x := it.Next();
      if x.None? {
        assert Frame(it.snd, f)[..0] == [];
        return;
      }
      FramesStep(it.snd, f, c);
      out := out + [x.value];
    }
  }
}
